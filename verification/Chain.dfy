/**
 The block chain: validation, appending, and reopening after a crash.

 Genesis creation is switched off, as the node starts it. Hash functions, signature
 checks and size limits are parameters.
 */
module Chain {
  import opened Common
  import opened Encoding
  import opened BlockStore
  import Merkle

  /** The parameters of a chain; a limit of 0 or less is no limit. */
  datatype Env = Env(
    keccak: Bytes -> Hash,
    pairHash: Merkle.PairHash,
    blockSignatureOk: Block -> bool,
    transactionSignatureOk: Transaction -> bool,
    maxBlockSize: int,
    maxTxPerBlock: int)

  /** The stored data with the tip the running node remembers. */
  datatype State = State(disk: Disk, latestHash: Hash, latestHeight: u64)

  datatype Error =
    | AlreadyExists | InvalidHeight | InvalidPrevHash | InvalidHash | InvalidSignature
    | TransactionExists(at: nat) | InvalidTransactionHash(at: nat) | InvalidTransactionSignature(at: nat)
    | InvalidMerkleRoot | TooLarge | TooManyTransactions
    | BatchFailed | HeightFailed

  function HeaderHash(env: Env, h: BlockHeader): Hash { env.keccak(HeaderBody(h)) }

  function TransactionHash(env: Env, t: Transaction): Hash { env.keccak(TransactionBody(t)) }

  function TransactionHashes(env: Env, txs: seq<Transaction>): (r: seq<Hash>)
    ensures |r| == |txs|
    ensures forall i :: 0 <= i < |txs| ==> r[i] == TransactionHash(env, txs[i])
  {
    if txs == [] then [] else TransactionHashes(env, txs[..|txs| - 1]) + [TransactionHash(env, txs[|txs| - 1])]
  }

  function MerkleRoot(env: Env, txs: seq<Transaction>): Hash {
    if txs == [] then ZERO_HASH else Merkle.Root(env.pairHash, TransactionHashes(env, txs))
  }

  function TransactionsSize(txs: seq<Transaction>): nat {
    if txs == [] then 0
    else TransactionsSize(txs[..|txs| - 1]) + |TransactionBody(txs[|txs| - 1])| + |txs[|txs| - 1].signature|
  }

  function BlockSize(b: Block): nat {
    |HeaderBytes(b.header)| + TransactionsSize(b.transactions)
  }

  function CheckTransaction(env: Env, d: Disk, t: Transaction, at: nat): Option<Error> {
    if HasTransaction(d, t.hash) then Some(TransactionExists(at))
    else if TransactionHash(env, t) != t.hash then Some(InvalidTransactionHash(at))
    else if |t.signature| > 0 && !env.transactionSignatureOk(t) then Some(InvalidTransactionSignature(at))
    else None
  }

  /** The first error among the transactions from position at on. */
  function CheckTransactions(env: Env, d: Disk, txs: seq<Transaction>, at: nat): Option<Error>
    requires at <= |txs|
    decreases |txs| - at
  {
    if at == |txs| then None
    else if CheckTransaction(env, d, txs[at], at).Some? then CheckTransaction(env, d, txs[at], at)
    else CheckTransactions(env, d, txs, at + 1)
  }

  /** The checks of a new block, in the source's order; the expected height wraps at 2^64. */
  function Validate(env: Env, s: State, b: Block): Option<Error> {
    if GetBlock(s.disk, b.header.hash).Some? then Some(AlreadyExists)
    else if b.header.height != (s.latestHeight + 1) % TWO_64 then Some(InvalidHeight)
    else if b.header.height > 1 && b.header.prevHash != s.latestHash then Some(InvalidPrevHash)
    else if HeaderHash(env, b.header) != b.header.hash then Some(InvalidHash)
    else if |b.header.signature| > 0 && !env.blockSignatureOk(b) then Some(InvalidSignature)
    else if CheckTransactions(env, s.disk, b.transactions, 0).Some? then
      CheckTransactions(env, s.disk, b.transactions, 0)
    else if MerkleRoot(env, b.transactions) != b.header.merkleRoot then Some(InvalidMerkleRoot)
    else if env.maxBlockSize > 0 && BlockSize(b) > env.maxBlockSize then Some(TooLarge)
    else if env.maxTxPerBlock > 0 && |b.transactions| > env.maxTxPerBlock then Some(TooManyTransactions)
    else None
  }

  /** Appending a block when the batch and the height write work or fail as given. */
  function Add(env: Env, s: State, b: Block, batchWorks: bool, heightWorks: bool): (State, Option<Error>) {
    if Validate(env, s, b).Some? then (s, Validate(env, s, b))
    else if !batchWorks then (s, Some(BatchFailed))
    else if !heightWorks then (s.(disk := WithBlock(s.disk, b)), Some(HeightFailed))
    else (State(WithLatestHeight(WithBlock(s.disk, b), b.header.height), b.header.hash, b.header.height), None)
  }

  /** Opening the store: None is malformed height data or an unreadable latest block. */
  function Open(d: Disk): Option<State> {
    if StoredHeight(d).None? then None
    else if StoredHeight(d).value == 0 then Some(State(d, ZERO_HASH, 0))
    else if BlockAt(d, StoredHeight(d).value).None? then None
    else Some(State(d, BlockAt(d, StoredHeight(d).value).value.header.hash, StoredHeight(d).value))
  }

  // ------------------------------------------------------------------ runs

  /** A crash loses the remembered tip, and reopening reads it back from the store. */
  datatype Op = Append(block: Block, batchWorks: bool, heightWorks: bool) | CrashAndReopen

  function Apply(env: Env, s: State, op: Op): State {
    match op
    case Append(b, batchWorks, heightWorks) => Add(env, s, b, batchWorks, heightWorks).0
    case CrashAndReopen => if Open(s.disk).Some? then Open(s.disk).value else s
  }

  function Run(env: Env, s: State, ops: seq<Op>): State {
    if ops == [] then s else Apply(env, Run(env, s, ops[..|ops| - 1]), ops[|ops| - 1])
  }

  /** Height n resolves to a block of that height whose hash is right. */
  ghost predicate Resolves(env: Env, d: Disk, n: u64) {
    && BlockAt(d, n).Some?
    && var h := BlockAt(d, n).value.header;
      h.height == n && HeaderHash(env, h) == h.hash
  }

  ghost predicate Linked(d: Disk, n: u64) {
    1 < n && BlockAt(d, n).Some? && BlockAt(d, n - 1).Some? ==>
      BlockAt(d, n).value.header.prevHash == BlockAt(d, n - 1).value.header.hash
  }

  /** Every height up to the latest resolves and is linked, and the remembered tip is the stored one. */
  ghost predicate Good(env: Env, s: State) {
    && StoredHeight(s.disk) == Some(s.latestHeight)
    && (forall n: u64 :: 1 <= n <= s.latestHeight ==> Resolves(env, s.disk, n) && Linked(s.disk, n))
    && (s.latestHeight > 0 ==>
          BlockAt(s.disk, s.latestHeight).Some? && BlockAt(s.disk, s.latestHeight).value.header.hash == s.latestHash)
  }

  /** What appending a valid block does to the height index, whether or not the second write works. */
  lemma AppendEffect(env: Env, s: State, b: Block, heightWorks: bool, n: u64)
    requires Validate(env, s, b).None?
    ensures var s' := Add(env, s, b, true, heightWorks).0;
      && BlockAt(s'.disk, b.header.height) == Some(b)
      && (n != b.header.height && BlockAt(s.disk, n).Some? ==> BlockAt(s'.disk, n) == BlockAt(s.disk, n))
      && StoredHeight(s'.disk) == if heightWorks then Some(b.header.height) else StoredHeight(s.disk)
  {
    var stored := WithBlock(s.disk, b);
    StoredHeightIndex(s.disk, b, n);
    StoredBlockByHeight(s.disk, b, n);
    StoringTheHeight(stored, b.header.height, b.header.hash, n);
    StoringTheHeight(stored, b.header.height, b.header.hash, b.header.height);
  }

  /**
   A store opens exactly if it has no height entry, or one of eight raw bytes that are zero
   or name a height at which a block is found; that is then the tip.
   */
  lemma OpensExactly(d: Disk)
    ensures var entry := LATEST_HEIGHT_KEY in d;
      var fine := entry && d[LATEST_HEIGHT_KEY].Raw? && |d[LATEST_HEIGHT_KEY].bytes| == 8;
      && (!entry ==> Open(d) == Some(State(d, ZERO_HASH, 0)))
      && (entry && !fine ==> Open(d).None?)
      && (fine ==>
            var n := FromBE(d[LATEST_HEIGHT_KEY].bytes);
            && n < TWO_64
            && (n == 0 ==> Open(d) == Some(State(d, ZERO_HASH, 0)))
            && (n > 0 && BlockAt(d, n).Some? ==> Open(d) == Some(State(d, BlockAt(d, n).value.header.hash, n)))
            && (n > 0 && BlockAt(d, n).None? ==> Open(d).None?))
  {
    PowersOf256();
    if LATEST_HEIGHT_KEY in d && d[LATEST_HEIGHT_KEY].Raw? && |d[LATEST_HEIGHT_KEY].bytes| == 8 {
      ToFromBE(d[LATEST_HEIGHT_KEY].bytes);
    }
    hide BlockAt, ToBE;
  }

  /** Opening a good chain succeeds, finds its tip and stays good. */
  lemma OpeningFindsTheTip(env: Env, s: State)
    requires Good(env, s)
    ensures Open(s.disk) == Some(s.(latestHash := if s.latestHeight == 0 then ZERO_HASH else s.latestHash))
    ensures Good(env, Open(s.disk).value)
  {
  }

  /** The blocks up to height n are the same on both disks. */
  ghost predicate SameUpTo(d: Disk, d': Disk, n: u64) {
    forall k: u64 :: 1 <= k <= n ==> BlockAt(d', k) == BlockAt(d, k)
  }

  lemma GoodOnChangedDisk(env: Env, s: State, d': Disk)
    requires Good(env, s) && SameUpTo(s.disk, d', s.latestHeight) && StoredHeight(d') == Some(s.latestHeight)
    ensures Good(env, s.(disk := d'))
  {
    hide BlockAt, StoredHeight;
    forall n: u64 | 1 <= n <= s.latestHeight
      ensures Resolves(env, d', n) && Linked(d', n)
    {
      assert Resolves(env, s.disk, n) && Linked(s.disk, n);
      if n > 1 { assert Resolves(env, s.disk, n - 1); }
    }
  }

  lemma ValidIsLinked(env: Env, s: State, b: Block)
    requires Validate(env, s, b).None?
    ensures HeaderHash(env, b.header) == b.header.hash
    ensures b.header.height > 1 ==> b.header.prevHash == s.latestHash
  {
    hide GetBlock, CheckTransactions, HeaderHash;
  }

  lemma GoodWithOneMore(env: Env, s: State, d': Disk, b: Block)
    requires Good(env, s) && SameUpTo(s.disk, d', s.latestHeight)
    requires b.header.height == s.latestHeight + 1 && Validate(env, s, b).None?
    requires BlockAt(d', b.header.height) == Some(b) && StoredHeight(d') == Some(b.header.height)
    ensures Good(env, State(d', b.header.hash, b.header.height))
  {
    hide BlockAt, StoredHeight, Validate, HeaderHash;
    ValidIsLinked(env, s, b);
    forall n: u64 | 1 <= n <= b.header.height
      ensures Resolves(env, d', n) && Linked(d', n)
    {
      if n <= s.latestHeight { assert Resolves(env, s.disk, n) && Linked(s.disk, n); }
      if n > 1 { assert Resolves(env, s.disk, n - 1); }
    }
  }

  /** One operation keeps the chain good and changes no block up to the latest height. */
  lemma OperationKeepsChain(env: Env, s: State, op: Op)
    requires Good(env, s)
    ensures Good(env, Apply(env, s, op))
    ensures SameUpTo(s.disk, Apply(env, s, op).disk, s.latestHeight)
    ensures Apply(env, s, op).latestHeight in {s.latestHeight, (s.latestHeight + 1) % TWO_64}
  {
    hide Good, BlockAt, WithBlock, WithLatestHeight, StoredHeight, Validate;
    match op
    case CrashAndReopen => OpeningFindsTheTip(env, s);
    case Append(b, batchWorks, heightWorks) =>
      if Validate(env, s, b).None? && batchWorks {
        AppendKeepsChain(env, s, b, heightWorks);
        AppendMovesTip(env, s, b, heightWorks);
      } else {
        assert Apply(env, s, op) == s;
      }
  }

  lemma AppendMovesTip(env: Env, s: State, b: Block, heightWorks: bool)
    requires Validate(env, s, b).None?
    ensures Add(env, s, b, true, heightWorks).0.latestHeight in {s.latestHeight, (s.latestHeight + 1) % TWO_64}
  {
  }

  lemma AppendKeepsHistory(env: Env, s: State, b: Block, heightWorks: bool)
    requires Good(env, s) && Validate(env, s, b).None?
    ensures SameUpTo(s.disk, Add(env, s, b, true, heightWorks).0.disk, s.latestHeight)
  {
    hide Add, BlockAt;
    forall n: u64 | 1 <= n <= s.latestHeight
      ensures BlockAt(Add(env, s, b, true, heightWorks).0.disk, n) == BlockAt(s.disk, n)
    {
      AppendEffect(env, s, b, heightWorks, n);
      assert Resolves(env, s.disk, n);
      NextHeight(s.latestHeight);
    }
  }

  lemma AppendKeepsChain(env: Env, s: State, b: Block, heightWorks: bool)
    requires Good(env, s) && Validate(env, s, b).None?
    ensures Good(env, Add(env, s, b, true, heightWorks).0)
    ensures SameUpTo(s.disk, Add(env, s, b, true, heightWorks).0.disk, s.latestHeight)
  {
    hide WithBlock, WithLatestHeight, BlockAt, StoredHeight, Resolves, Linked, SameUpTo, GetBlock, CheckTransactions;
    var s' := Add(env, s, b, true, heightWorks).0;
    AppendKeepsHistory(env, s, b, heightWorks);
    AppendEffect(env, s, b, heightWorks, 0);
    NextHeight(s.latestHeight);
    if !heightWorks {
      GoodOnChangedDisk(env, s, s'.disk);
    } else if s.latestHeight + 1 < TWO_64 {
      GoodWithOneMore(env, s, s'.disk, b);
    }
  }

  lemma NextHeight(n: u64)
    ensures (n + 1) % TWO_64 == if n == TWO_64 - 1 then 0 else n + 1
  {
  }

  /** A node on an empty store. */
  function Fresh(): State {
    State(map[], ZERO_HASH, 0)
  }

  /**
   Crash safety: after any sequence of appends, failed writes, crashes and reopenings on a
   fresh store, every height up to the latest resolves to a block of that height with the
   right hash, linked to its predecessor.
   */
  lemma {:induction false} RunKeepsChain(env: Env, ops: seq<Op>)
    ensures Good(env, Run(env, Fresh(), ops))
  {
    if ops != [] {
      RunKeepsChain(env, ops[..|ops| - 1]);
      OperationKeepsChain(env, Run(env, Fresh(), ops[..|ops| - 1]), ops[|ops| - 1]);
    }
  }

  /** History is stable: as long as heights do not overflow, no run changes a block at or below the latest height. */
  lemma {:induction false} RunKeepsHistory(env: Env, s: State, ops: seq<Op>)
    requires Good(env, s) && s.latestHeight + |ops| < TWO_64
    ensures Good(env, Run(env, s, ops))
    ensures s.latestHeight <= Run(env, s, ops).latestHeight <= s.latestHeight + |ops|
    ensures SameUpTo(s.disk, Run(env, s, ops).disk, s.latestHeight)
  {
    hide BlockAt, Good, Apply;
    if ops != [] {
      var before := Run(env, s, ops[..|ops| - 1]);
      RunKeepsHistory(env, s, ops[..|ops| - 1]);
      OperationKeepsChain(env, before, ops[|ops| - 1]);
      NextHeight(before.latestHeight);
    }
  }

  /** Reopening after a crash never loses an appended block: the tip found is the tip remembered. */
  lemma ReopenAfterRun(env: Env, ops: seq<Op>)
    ensures var s := Run(env, Fresh(), ops);
      && Open(s.disk).Some?
      && Open(s.disk).value.latestHeight == s.latestHeight
      && (s.latestHeight > 0 ==> Open(s.disk).value.latestHash == s.latestHash)
  {
    RunKeepsChain(env, ops);
    OpeningFindsTheTip(env, Run(env, Fresh(), ops));
  }

  // ------------------------------------------------------------------ what blocks are admitted

  lemma AppendReads(env: Env, s: State, b: Block, heightWorks: bool, h: Hash)
    requires Validate(env, s, b).None?
    ensures GetBlock(s.disk, b.header.hash).None?
    ensures GetBlock(Add(env, s, b, true, heightWorks).0.disk, h) ==
      if h == b.header.hash then Some(b) else GetBlock(s.disk, h)
  {
    StoredBlockByHash(s.disk, b, h);
    StoringTheHeight(WithBlock(s.disk, b), b.header.height, h, 0);
    hide GetBlock, WithBlock, WithLatestHeight;
  }

  /** A signature is missing or passes its check. */
  predicate BlockSignatureFine(env: Env, b: Block) {
    b.header.signature == [] || env.blockSignatureOk(b)
  }

  predicate TransactionFine(env: Env, t: Transaction) {
    (t.signature == [] || env.transactionSignatureOk(t)) && env.keccak(TransactionBody(t)) == t.hash
  }

  /** The size of transactions in bytes: 85 for the fields of fixed length, the data and the signature. */
  function SizeInBytes(txs: seq<Transaction>): nat {
    if txs == [] then 0
    else SizeInBytes(txs[..|txs| - 1]) + 85 + |txs[|txs| - 1].data| + |txs[|txs| - 1].signature|
  }

  /** What a block has to be on its own, whatever chain it is offered to. */
  ghost predicate Proper(env: Env, b: Block) {
    && env.keccak(HeaderBody(b.header)) == b.header.hash
    && BlockSignatureFine(env, b)
    && (forall t :: t in b.transactions ==> TransactionFine(env, t))
    && b.header.merkleRoot == MerkleRoot(env, b.transactions)
    && (env.maxBlockSize > 0 ==> 144 + |b.header.signature| + SizeInBytes(b.transactions) <= env.maxBlockSize)
    && (env.maxTxPerBlock > 0 ==> |b.transactions| <= env.maxTxPerBlock)
  }

  /** What a block has to be for a chain: new, next, linked, and without transactions already stored. */
  ghost predicate Fits(s: State, b: Block) {
    && GetBlock(s.disk, b.header.hash).None?
    && b.header.height == (if s.latestHeight == TWO_64 - 1 then 0 else s.latestHeight + 1)
    && (b.header.height > 1 ==> b.header.prevHash == s.latestHash)
    && forall t :: t in b.transactions ==> !HasTransaction(s.disk, t.hash)
  }

  lemma {:induction false} SizeAddsUp(txs: seq<Transaction>)
    ensures TransactionsSize(txs) == SizeInBytes(txs)
  {
    if txs != [] {
      SizeAddsUp(txs[..|txs| - 1]);
      TransactionBodyLength(txs[|txs| - 1]);
    }
  }

  lemma {:induction false} ChecksAllTransactions(env: Env, d: Disk, txs: seq<Transaction>, at: nat)
    requires at <= |txs|
    ensures CheckTransactions(env, d, txs, at).None? <==>
      forall i :: at <= i < |txs| ==> TransactionFine(env, txs[i]) && !HasTransaction(d, txs[i].hash)
    decreases |txs| - at
  {
    if at < |txs| { ChecksAllTransactions(env, d, txs, at + 1); }
  }

  /** A block passes validation exactly if it is proper and fits. */
  lemma ValidExactlyIfProperAndFitting(env: Env, s: State, b: Block)
    ensures Validate(env, s, b).None? <==> Proper(env, b) && Fits(s, b)
  {
    hide HeaderBody, GetBlock, HasTransaction, CheckTransactions, MerkleRoot, TransactionFine, BlockSize, SizeInBytes;
    SizesAgree(b);
    ChecksAllTransactions(env, s.disk, b.transactions, 0);
    NextHeight(s.latestHeight);
    EachTransaction(env, s.disk, b.transactions);
  }

  lemma SizesAgree(b: Block)
    ensures BlockSize(b) == 144 + |b.header.signature| + SizeInBytes(b.transactions)
  {
    SizeAddsUp(b.transactions);
    HeaderBodyLength(b.header);
    hide HeaderBody, SizeInBytes, TransactionsSize;
  }

  lemma EachTransaction(env: Env, d: Disk, txs: seq<Transaction>)
    ensures (forall i :: 0 <= i < |txs| ==> TransactionFine(env, txs[i]) && !HasTransaction(d, txs[i].hash)) <==>
      && (forall t :: t in txs ==> TransactionFine(env, t))
      && (forall t :: t in txs ==> !HasTransaction(d, t.hash))
  {
    hide TransactionFine, HasTransaction;
  }

  /** What a refusal says is so. */
  lemma RefusalsTellTheTruth(env: Env, s: State, b: Block, error: Error)
    requires Validate(env, s, b) == Some(error)
    ensures match error
      case AlreadyExists => GetBlock(s.disk, b.header.hash).Some?
      case InvalidHeight =>
        b.header.height != if s.latestHeight == TWO_64 - 1 then 0 else s.latestHeight + 1
      case InvalidPrevHash => b.header.height > 1 && b.header.prevHash != s.latestHash
      case InvalidHash => env.keccak(HeaderBody(b.header)) != b.header.hash
      case InvalidSignature => !BlockSignatureFine(env, b)
      case TransactionExists(i) => i < |b.transactions| && HasTransaction(s.disk, b.transactions[i].hash)
      case InvalidTransactionHash(i) =>
        i < |b.transactions| && env.keccak(TransactionBody(b.transactions[i])) != b.transactions[i].hash
      case InvalidTransactionSignature(i) =>
        && i < |b.transactions| && b.transactions[i].signature != []
        && !env.transactionSignatureOk(b.transactions[i])
      case InvalidMerkleRoot => MerkleRoot(env, b.transactions) != b.header.merkleRoot
      case TooLarge =>
        0 < env.maxBlockSize < 144 + |b.header.signature| + SizeInBytes(b.transactions)
      case TooManyTransactions => 0 < env.maxTxPerBlock < |b.transactions|
      case _ => false
  {
    hide HeaderBody, GetBlock, HasTransaction, CheckTransactions, MerkleRoot, TransactionBody, BlockSize, SizeInBytes;
    SizesAgree(b);
    NextHeight(s.latestHeight);
    FirstBadTransaction(env, s.disk, b.transactions, 0);
  }

  lemma {:induction false} FirstBadTransaction(env: Env, d: Disk, txs: seq<Transaction>, at: nat)
    requires at <= |txs|
    ensures match CheckTransactions(env, d, txs, at)
      case None => true
      case Some(TransactionExists(i)) => i < |txs| && HasTransaction(d, txs[i].hash)
      case Some(InvalidTransactionHash(i)) => i < |txs| && env.keccak(TransactionBody(txs[i])) != txs[i].hash
      case Some(InvalidTransactionSignature(i)) =>
        i < |txs| && txs[i].signature != [] && !env.transactionSignatureOk(txs[i])
      case _ => false
    decreases |txs| - at
  {
    hide TransactionBody, HasTransaction;
    if at < |txs| { FirstBadTransaction(env, d, txs, at + 1); }
  }

  /**
   A block is appended exactly if it is proper and fits and both writes work; then it is the
   tip and is found at its height.
   */
  lemma AppendedExactlyIfProperAndFitting(env: Env, s: State, b: Block, batchWorks: bool, heightWorks: bool)
    ensures var (s', error) := Add(env, s, b, batchWorks, heightWorks);
      && (error.None? <==> Proper(env, b) && Fits(s, b) && batchWorks && heightWorks)
      && (error.None? ==>
            && s'.latestHash == b.header.hash && s'.latestHeight == b.header.height
            && BlockAt(s'.disk, b.header.height) == Some(b) && StoredHeight(s'.disk) == Some(b.header.height))
  {
    ValidExactlyIfProperAndFitting(env, s, b);
    hide Validate, Proper, Fits, BlockAt, StoredHeight, WithBlock, WithLatestHeight;
    if Validate(env, s, b).None? { AppendEffect(env, s, b, true, b.header.height); }
  }

  /** Every block that can be read by its hash is proper. */
  ghost predicate AllProper(env: Env, d: Disk) {
    forall h :: GetBlock(d, h).Some? ==> Proper(env, GetBlock(d, h).value)
  }

  lemma OperationKeepsProper(env: Env, s: State, op: Op)
    requires AllProper(env, s.disk)
    ensures AllProper(env, Apply(env, s, op).disk)
  {
    hide GetBlock, Proper, Validate, WithBlock, WithLatestHeight;
    if op.Append? && Validate(env, s, op.block).None? && op.batchWorks {
      ValidExactlyIfProperAndFitting(env, s, op.block);
      var d := Apply(env, s, op).disk;
      forall h | GetBlock(d, h).Some?
        ensures Proper(env, GetBlock(d, h).value)
      {
        AppendReads(env, s, op.block, op.heightWorks, h);
      }
    }
  }

  lemma {:induction false} RunKeepsProper(env: Env, ops: seq<Op>)
    ensures AllProper(env, Run(env, Fresh(), ops).disk)
  {
    if ops != [] {
      RunKeepsProper(env, ops[..|ops| - 1]);
      hide AllProper, Apply;
      OperationKeepsProper(env, Run(env, Fresh(), ops[..|ops| - 1]), ops[|ops| - 1]);
    }
  }

  /**
   After any run, every block that resolves at any height has its own hash, transactions and
   Merkle root right, a signature and transactions' signatures that are missing or pass, and
   keeps within the limits.
   */
  lemma EveryBlockIsProper(env: Env, ops: seq<Op>, n: u64)
    requires BlockAt(Run(env, Fresh(), ops).disk, n).Some?
    ensures Proper(env, BlockAt(Run(env, Fresh(), ops).disk, n).value)
  {
    RunKeepsProper(env, ops);
    hide Run, Proper, GetBlock;
  }

  // ------------------------------------------------------------------ a lost second write

  /** The store knows block b and all its transactions. */
  ghost predicate Knows(d: Disk, b: Block) {
    GetBlock(d, b.header.hash).Some? && forall t :: t in b.transactions ==> HasTransaction(d, t.hash)
  }

  lemma StoringIsKnowing(d: Disk, b: Block)
    ensures Knows(WithBlock(d, b), b)
  {
    StoredBlockByHash(d, b, b.header.hash);
    hide WithBlock, HasTransaction, GetBlock;
    forall t | t in b.transactions
      ensures HasTransaction(WithBlock(d, b), t.hash)
    {
      StoredTransactions(d, b, t.hash);
    }
  }

  lemma HeightTouchesNoTransaction(d: Disk, height: u64, h: Hash)
    ensures HasTransaction(WithLatestHeight(d, height), h) == HasTransaction(d, h)
  {
    assert TransactionKey(h)[0] == 116 && LATEST_HEIGHT_KEY[0] == 109;
  }

  /** No operation forgets a block or a transaction. */
  lemma OperationForgetsNothing(env: Env, s: State, op: Op, b: Block)
    requires Knows(s.disk, b)
    ensures Knows(Apply(env, s, op).disk, b)
  {
    if op.Append? {
      var d, c := s.disk, op.block;
      StoredBlockByHash(d, c, b.header.hash);
      StoringTheHeight(WithBlock(d, c), c.header.height, b.header.hash, 0);
      hide WithBlock, WithLatestHeight, HasTransaction, GetBlock, Validate;
      forall t | t in b.transactions
        ensures HasTransaction(WithBlock(d, c), t.hash)
        ensures HasTransaction(WithLatestHeight(WithBlock(d, c), c.header.height), t.hash)
      {
        StoredTransactions(d, c, t.hash);
        HeightTouchesNoTransaction(WithBlock(d, c), c.header.height, t.hash);
      }
    }
  }

  lemma {:induction false} RunForgetsNothing(env: Env, s: State, ops: seq<Op>, b: Block)
    requires Knows(s.disk, b)
    ensures Knows(Run(env, s, ops).disk, b)
  {
    hide Knows, Apply;
    if ops != [] {
      RunForgetsNothing(env, s, ops[..|ops| - 1], b);
      OperationForgetsNothing(env, Run(env, s, ops[..|ops| - 1]), ops[|ops| - 1], b);
    }
  }

  lemma {:induction false} KnownTransactionIsRefused(env: Env, d: Disk, txs: seq<Transaction>, at: nat, i: nat)
    requires at <= i < |txs| && HasTransaction(d, txs[i].hash)
    ensures CheckTransactions(env, d, txs, at).Some?
    decreases |txs| - at
  {
    if at < i { KnownTransactionIsRefused(env, d, txs, at + 1, i); }
  }

  /**
   A block whose batch was written while the height was not is refused for ever, by this
   node and after every later run with crashes and reopenings, and so is every other block
   that contains one of its transactions.
   */
  lemma LostHeightBlocksForEver(env: Env, s: State, b: Block, ops: seq<Op>, other: Block)
    requires Validate(env, s, b).None?
    ensures var later := Run(env, Add(env, s, b, true, false).0, ops);
      && Validate(env, later, b) == Some(AlreadyExists)
      && ((exists t :: t in b.transactions && t in other.transactions) ==> Validate(env, later, other).Some?)
  {
    StoringIsKnowing(s.disk, b);
    RunForgetsNothing(env, Add(env, s, b, true, false).0, ops, b);
    var later := Run(env, Add(env, s, b, true, false).0, ops);
    hide Run, Add, HasTransaction, GetBlock;
    if t :| t in b.transactions && t in other.transactions {
      var i :| 0 <= i < |other.transactions| && other.transactions[i] == t;
      KnownTransactionIsRefused(env, later.disk, other.transactions, 0, i);
    }
  }

  // ------------------------------------------------------------------ one tip, one history

  function HeaderAt(s: State, n: u64): BlockHeader
    requires BlockAt(s.disk, n).Some?
  {
    BlockAt(s.disk, n).value.header
  }

  /** The bytes hashed for the headers of a chain up to height n. */
  ghost function HashedBytes(s: State, n: u64): set<Bytes> {
    set k: u64 | 1 <= k <= n && BlockAt(s.disk, k).Some? :: HeaderBody(BlockAt(s.disk, k).value.header)
  }

  lemma BytesAreHashed(s: State, n: u64, k: u64)
    requires 1 <= k <= n && BlockAt(s.disk, k).Some?
    ensures HeaderBody(HeaderAt(s, k)) in HashedBytes(s, n)
  {
  }

  lemma SameHashSameHeader(env: Env, s: State, t: State, m: u64, n: u64, u: set<Bytes>)
    requires 1 <= m <= s.latestHeight && 1 <= n <= t.latestHeight
    requires HashedBytes(s, s.latestHeight) <= u && HashedBytes(t, t.latestHeight) <= u && CollisionFree(env.keccak, u)
    requires Resolves(env, s.disk, m) && Resolves(env, t.disk, n) && HeaderAt(s, m).hash == HeaderAt(t, n).hash
    ensures HeaderAt(s, m) == HeaderAt(t, n) && m == n
  {
    hide HeaderBody, BlockAt;
    BytesAreHashed(s, s.latestHeight, m);
    BytesAreHashed(t, t.latestHeight, n);
    HeaderBodyInjective(HeaderAt(s, m), HeaderAt(t, n));
  }

  /** Chains whose blocks at height n have one hash have the same headers at every height up to n. */
  lemma {:induction false} SameHashSameHistory(env: Env, s: State, t: State, m: u64, n: u64, u: set<Bytes>, k: u64)
    requires Good(env, s) && Good(env, t) && 1 <= k <= m <= s.latestHeight && 1 <= n <= t.latestHeight
    requires HashedBytes(s, s.latestHeight) <= u && HashedBytes(t, t.latestHeight) <= u && CollisionFree(env.keccak, u)
    requires Resolves(env, s.disk, m) && Resolves(env, t.disk, n)
    requires HeaderAt(s, m).hash == HeaderAt(t, n).hash
    ensures m == n
    ensures BlockAt(s.disk, k).Some? && BlockAt(t.disk, k).Some? && HeaderAt(s, k) == HeaderAt(t, k)
    decreases m
  {
    SameHashSameHeader(env, s, t, m, n, u);
    hide HashedBytes, CollisionFree, HeaderBody, BlockAt;
    if k < m {
      assert Resolves(env, s.disk, m - 1) && Resolves(env, t.disk, n - 1);
      assert Linked(s.disk, m) && Linked(t.disk, n);
      SameHashSameHistory(env, s, t, m - 1, n - 1, u, k);
    }
  }

  /** Two good chains with the same tip have the same height and the same header at every height. */
  lemma SameTipSameHistory(env: Env, s: State, t: State, u: set<Bytes>, k: u64)
    requires Good(env, s) && Good(env, t) && s.latestHeight > 0 && t.latestHeight > 0
    requires HashedBytes(s, s.latestHeight) <= u && HashedBytes(t, t.latestHeight) <= u && CollisionFree(env.keccak, u)
    requires s.latestHash == t.latestHash && 1 <= k <= s.latestHeight
    ensures s.latestHeight == t.latestHeight
    ensures BlockAt(s.disk, k).Some? && BlockAt(t.disk, k).Some? && HeaderAt(s, k) == HeaderAt(t, k)
  {
    assert Resolves(env, s.disk, s.latestHeight) && Resolves(env, t.disk, t.latestHeight);
    SameHashSameHistory(env, s, t, s.latestHeight, t.latestHeight, u, k);
  }

  // ------------------------------------------------------------------ the chain as an object

  /** What a range query returns; CapacityPanic is the panic of allocating too large a slice. */
  datatype RangeResult = Blocks(blocks: seq<Block>) | InvalidRange | CapacityPanic | NotFound(at: u64)

  class Blockchain {
    const env: Env
    const storage: Storage
    var latestHash: Hash
    var latestHeight: u64

    ghost function View(): State
      reads this, storage
    {
      State(storage.data, latestHash, latestHeight)
    }

    constructor (env: Env, storage: Storage, hash: Hash, height: u64)
      ensures this.env == env && this.storage == storage && latestHash == hash && latestHeight == height
    {
      this.env := env;
      this.storage := storage;
      latestHash := hash;
      latestHeight := height;
    }

    /** Opens the chain kept in a store, or fails. */
    static method New(env: Env, storage: Storage) returns (bc: Blockchain?)
      ensures bc == null <==> Open(storage.data).None?
      ensures bc != null ==>
        fresh(bc) && bc.env == env && bc.storage == storage && Open(storage.data) == Some(bc.View())
    {
      var height := StoredHeight(storage.data);
      if height.None? { return null; }
      if height.value == 0 {
        bc := new Blockchain(env, storage, ZERO_HASH, 0);
        return;
      }
      var latest := BlockAt(storage.data, height.value);
      if latest.None? { return null; }
      bc := new Blockchain(env, storage, latest.value.header.hash, height.value);
    }

    method ValidateBlock(b: Block) returns (error: Option<Error>)
      ensures error == Validate(env, View(), b)
    {
      hide GetBlock, HasTransaction, CheckTransaction, HeaderBody, MerkleRoot, BlockSize, BlockAt;
      if GetBlock(storage.data, b.header.hash).Some? { return Some(AlreadyExists); }
      var expected := if latestHeight == TWO_64 - 1 then 0 else latestHeight + 1;
      NextHeight(latestHeight);
      if b.header.height != expected { return Some(InvalidHeight); }
      if b.header.height > 1 {
        if b.header.prevHash != latestHash { return Some(InvalidPrevHash); }
      }
      var body := SerializeWithoutHash(b.header);
      if env.keccak(body) != b.header.hash { return Some(InvalidHash); }
      if |b.header.signature| > 0 {
        if !env.blockSignatureOk(b) { return Some(InvalidSignature); }
      }
      for i := 0 to |b.transactions|
        invariant CheckTransactions(env, storage.data, b.transactions, i) ==
                  CheckTransactions(env, storage.data, b.transactions, 0)
      {
        var failure := ValidateTransaction(b.transactions[i], i);
        if failure.Some? { return failure; }
      }
      var root := CalculateRoot(b.transactions);
      if root != b.header.merkleRoot { return Some(InvalidMerkleRoot); }
      if env.maxBlockSize > 0 && BlockSize(b) > env.maxBlockSize { return Some(TooLarge); }
      if env.maxTxPerBlock > 0 && |b.transactions| > env.maxTxPerBlock { return Some(TooManyTransactions); }
      return None;
    }

    method ValidateTransaction(t: Transaction, at: nat) returns (error: Option<Error>)
      ensures error == CheckTransaction(env, storage.data, t, at)
    {
      if HasTransaction(storage.data, t.hash) { return Some(TransactionExists(at)); }
      var body := SerializeTransaction(t);
      if env.keccak(body) != t.hash { return Some(InvalidTransactionHash(at)); }
      if |t.signature| > 0 {
        if !env.transactionSignatureOk(t) { return Some(InvalidTransactionSignature(at)); }
      }
      return None;
    }

    method CalculateRoot(txs: seq<Transaction>) returns (root: Hash)
      ensures root == MerkleRoot(env, txs)
    {
      var hashes: seq<Hash> := [];
      for i := 0 to |txs|
        invariant hashes == TransactionHashes(env, txs[..i])
      {
        var body := SerializeTransaction(txs[i]);
        assert txs[..i + 1][..i] == txs[..i];
        hashes := hashes + [env.keccak(body)];
      }
      assert txs[..|txs|] == txs;
      root := Merkle.CalculateMerkleRoot(env.pairHash, hashes);
    }

    /** Validates, stores and moves the tip; a failed write leaves the tip where it was. */
    method AddBlock(b: Block, batchWorks: bool, heightWorks: bool) returns (error: Option<Error>)
      modifies this, storage
      ensures (View(), error) == Add(env, old(View()), b, batchWorks, heightWorks)
    {
      var invalid := ValidateBlock(b);
      if invalid.Some? { return invalid; }
      var stored := PutBlock(storage, b, batchWorks);
      if !stored { return Some(BatchFailed); }
      var marked := SetLatestHeight(storage, b.header.height, heightWorks);
      if !marked { return Some(HeightFailed); }
      latestHash := b.header.hash;
      latestHeight := b.header.height;
      return None;
    }

    /**
     The blocks from start to end, the end cut to the latest height. The capacity the
     source computes for the result wraps at 2^64; maxCapacity is what the runtime can
     allocate. A range that ends at 2^64 - 1 is excluded, because the source's loop does
     not stop there. In a good chain the answer is a linked chain of blocks.
     */
    method GetBlocksRange(start: u64, end: u64, maxCapacity: nat) returns (r: RangeResult)
      requires latestHeight < TWO_64 - 1 || end < TWO_64 - 1
      ensures start > end ==> r == InvalidRange
      ensures var last := if end > latestHeight then latestHeight else end;
        start <= end ==>
          if (last - start + 1) % TWO_64 > maxCapacity then r == CapacityPanic
          else if forall n: u64 :: start <= n <= last ==> BlockAt(storage.data, n).Some? then
            && r.Blocks? && |r.blocks| == (if start <= last then last - start + 1 else 0)
            && forall i :: 0 <= i < |r.blocks| ==> Some(r.blocks[i]) == BlockAt(storage.data, start + i)
          else
            && r.NotFound? && start <= r.at <= last && BlockAt(storage.data, r.at).None?
            && forall n: u64 :: start <= n < r.at ==> BlockAt(storage.data, n).Some?
      ensures Good(env, View()) && 1 <= start <= end && !r.CapacityPanic? ==>
        r.Blocks? && LinkedFrom(r.blocks, start)
    {
      hide Good, BlockAt, LinkedFrom;
      if start > end { return InvalidRange; }
      var last := if end > latestHeight then latestHeight else end;
      if (last - start + 1) % TWO_64 > maxCapacity { return CapacityPanic; }
      var blocks: seq<Block> := [];
      var height := start;
      while height <= last
        invariant start <= height && (height <= last + 1 || height == start)
        invariant |blocks| == height - start
        invariant forall i :: 0 <= i < |blocks| ==> Some(blocks[i]) == BlockAt(storage.data, start + i)
        decreases last + 1 - height
      {
        var block := BlockAt(storage.data, height);
        if block.None? {
          assert forall n: u64 :: start <= n < height ==> BlockAt(storage.data, n) == Some(blocks[n - start]);
          if Good(env, View()) && start >= 1 { GoodChainsHaveEveryBlock(env, View(), height); }
          return NotFound(height);
        }
        blocks := blocks + [block.value];
        height := height + 1;
      }
      assert forall n: u64 :: start <= n <= last ==> BlockAt(storage.data, n) == Some(blocks[n - start]);
      if Good(env, View()) && start >= 1 { GoodChainsAnswerRanges(env, View(), start, blocks); }
      return Blocks(blocks);
    }
  }

  lemma GoodChainsHaveEveryBlock(env: Env, s: State, n: u64)
    requires Good(env, s) && 1 <= n <= s.latestHeight
    ensures BlockAt(s.disk, n).Some?
  {
    assert Resolves(env, s.disk, n);
  }

  /** Blocks of the heights from start on, each linked to the one before. */
  ghost predicate LinkedFrom(blocks: seq<Block>, start: nat) {
    && (forall i :: 0 <= i < |blocks| ==> blocks[i].header.height == start + i)
    && (forall i :: 0 < i < |blocks| ==> blocks[i].header.prevHash == blocks[i - 1].header.hash)
  }

  /** The blocks that a good chain stores at the heights from start on are linked. */
  lemma GoodChainsAnswerRanges(env: Env, s: State, start: u64, blocks: seq<Block>)
    requires Good(env, s) && 1 <= start && (blocks != [] ==> start + |blocks| - 1 <= s.latestHeight)
    requires forall i :: 0 <= i < |blocks| ==> BlockAt(s.disk, start + i) == Some(blocks[i])
    ensures LinkedFrom(blocks, start)
  {
    hide BlockAt;
    forall i | 0 <= i < |blocks|
      ensures blocks[i].header.height == start + i
      ensures i > 0 ==> blocks[i].header.prevHash == blocks[i - 1].header.hash
    {
      assert Resolves(env, s.disk, start + i) && Linked(s.disk, start + i);
      if i > 0 { assert BlockAt(s.disk, start + (i - 1)) == Some(blocks[i - 1]); }
    }
  }
}
