# A verified model of the V2V block chain node

This project models the parts of a vehicle-to-vehicle block chain node whose behaviour is
hard to see from the code, and proves in Dafny 4.11 what they keep over whole runs:

| file | component |
|---|---|
| `Common.dfy` | bytes, hashes, addresses, machine integers |
| `Validators.dfy` | the validator set: quorums, primaries, reconfiguration |
| `Pbft.dfy`, `PbftSafety.dfy` | the consensus engine's handlers, and agreement among engines |
| `PbftOverwriting.dfy` | exactly which overwriting of slot hashes agreement survives |
| `Merkle.dfy` | tree builder, iterative root, proof generation and checking |
| `Encoding.dfy` | binary encodings of headers, transactions and Merkle proofs |
| `BlockStore.dfy`, `Chain.dfy` | blocks in a byte-keyed store, the chain over it, crashes |
| `LightClient.dfy` | the header window of the light client, inclusion checks |
| `Forks.dfy` | the common ancestor search and the reorganization limit |
| `PriorityQueue.dfy`, `TxPool.dfy` | the binary heap and the transaction pool |
| `RateLimit.dfy` | the token-bucket limiter |
| `Platoons.dfy`, `PlatoonService.dfy` | platoons, their service and its history |
| `AuditLog.dfy` | the audit chain and its anchoring |

`dafny verify dfyconfig.toml` checks everything.

How it is built. Each component has a specification: a datatype for its state and a
function for each operation, errors included. Where the node changes state step by step
there is a class or a method with the same loops and branches, proved equal to that
function (`ensures (View(), error) == Add(config, old(View()), ...)`). The properties of
whole runs are lemmas about the functions: a run is a sequence of operations, with the
inputs, clock readings, random identifiers and outcomes of storage writes as parameters.

Hash functions are parameters. Where a theorem needs one to be free of collisions it says
on which inputs (`CollisionFree`, `NoPairCollision`): the strings hashed for the blocks,
headers or records it speaks of. Nothing is assumed about all inputs, since a function onto
32 bytes cannot be injective. Signature checks are arbitrary predicates.

## What was found

- **Overwriting a slot breaks agreement.** A second pre-prepare for a sequence number
  replaces the slot's hash and keeps its votes (`internal/core/consensus/pbft.go:351-352`).
  `PbftOverwriting.OverwritingBreaksAgreement` is, for any list of at least two validators, a
  run in which nobody is faulty: the primary proposes both blocks before anything is
  delivered, as its block timer can, and in the end two different nodes hand over different
  blocks for one sequence number. `PbftOverwriting.EngineAgreesOnlyAlone`: the engine as it is
  agrees in every run if and only if there is at most one validator.
- **Exactly which overwriting is harmless.** A node can tell before accepting a pre-prepare
  whether it changes the hash of a slot that has recorded commit votes. Take any policy that
  says which such changes are let through. `PbftOverwriting.AgreementExactlyWhenAffordable`:
  all runs that follow the policy agree if and only if, with four validators or more, it lets
  none through; with two or three, it never leads from a hash to another one and back; with
  one, always. `PbftSafety.Agreement` is the same for a weaker condition that speaks of the
  votes of correct nodes only, and that no single node can check.
- **One prepare less than documented.** The repository's requirements for consensus ask for
  2f+1 prepares before a commit; the engine counts the pre-prepare as one of them and needs `Quorum() - 1`
  (`internal/core/consensus/types.go:346-352`). The model follows the engine. Agreement does
  not rest on the number of prepares.
- **Reorganizations and first blocks.** The ancestor search needs heights to fall along
  parent pointers. Validation does not check the previous hash of a block at height 1, and
  `Forks.RunStoresFall` shows that on every store the chain produces the assumption holds
  exactly when no block at height 1 names a stored block above height 0.
  `Forks.FirstBlocksCanClimb` is a run that violates it.
- **A lost height write is final.** When the batch of a block is written and the height is
  not, the block is refused for ever, after every later run, and so is every block that
  contains one of its transactions (`Chain.LostHeightBlocksForEver`).
- **The platoon history misses members when a write fails.** The entry is recorded after
  the write, the change is kept in memory (`internal/service/platoon/service.go:232-258`,
  `internal/service/platoon/service.go:310-340`). `PlatoonService.OperationIsTold` shows that
  the history of a platoon stays right through an operation on it exactly when the write
  works or the operation changes nothing; with working writes it always is, and then it tells
  members, validators, leader and status.
- **A dead branch.** Leaving never empties a platoon, so the automatic dissolution at
  `internal/service/platoon/service.go:323-326` is never taken (`PlatoonService.LeaveIsSound`).
- **A new leader is not marked as leader.** A platoon's creator ends with the role of a
  validator (`internal/service/platoon/service.go:99`), so the role of leader exists only
  after the first change of leader (`Platoons.CreatedIsGood`).
- **The reported waiting time is cut to whole seconds**, so waiting exactly that long is
  enough if and only if the missing part of a token takes a whole number of seconds
  (`RateLimit.WaitIsCutToSeconds`, with an example in `RateLimit.WaitingAsToldIsNotEnough`).
- **A Merkle root does not fix the number of leaves.** `Merkle.PaddedListHasSameRoot`; with
  the length given it fixes the leaves (`Merkle.RootBindsLeaves`). The light client does not
  look at the length of a proof, and shorter proofs that carry an inner node are accepted
  (`LightClient.ShorterProofsAreAccepted`).

## Model

| member | source | states |
|---|---|---|
| Validators.QuorumIsReachable | internal/core/consensus/types.go:256-263 | for every n >= 1 the validators that may not be faulty are enough for a quorum |
| Validators.ThirdsOfValidators | internal/core/consensus/types.go:256-263 | a quorum is the smallest number above two thirds, and the tolerated faults are the most below a third |
| Validators.QuorumsOverlap | internal/core/consensus/types.go:256-263 | any two quorums of one validator list share more validators than may be faulty |
| Validators.QuorumsOverlapAcrossReconfiguration | internal/core/consensus/types.go:256-309 | a quorum before and a quorum after one addition or removal share more members than the larger fault tolerance |
| Validators.SwapRemoveKeepsTheRest | internal/core/consensus/types.go:299-309 | overwriting with the last entry and cutting removes exactly one validator and keeps the list distinct |
| Validators.ReconfigureKeepsDistinct | internal/core/consensus/types.go:290-309 | one change adds or removes exactly that validator and keeps the list distinct |
| Validators.ConsecutivePrimariesDiffer | internal/core/consensus/types.go:266-272 | consecutive views below 2^63, as many as there are validators, have different primaries |
| Validators.SomePrimaryIsCorrect | internal/core/consensus/types.go:256-272 | among FaultTolerance + 1 consecutive views below 2^63 one has a correct primary |
| Validators.PrimaryOfHugeViews | internal/core/consensus/types.go:266-272 | below 2^63 the primary is the view modulo the number of validators; from there on it is the first one or a panic, by the distance to 2^64 |
| Validators.ValidatorSet.GetPrimary | internal/core/consensus/types.go:266-272 | the primary by Go's signed remainder; the zero address without validators; a panic for a negative remainder |
| Validators.ValidatorSet.AddValidator | internal/core/consensus/types.go:290-296 | fails exactly on a listed address and otherwise appends it |
| Validators.ValidatorSet.RemoveValidator | internal/core/consensus/types.go:299-309 | fails exactly on an unlisted address and otherwise removes it by swapping with the last |
| Pbft.Engine.HandleMessage | internal/core/consensus/pbft.go:288-313 | changes the slots, replies and fails as the specification of the handlers says |
| Pbft.Engine.HandlePrePrepare | internal/core/consensus/pbft.go:316-399 | stores or refuses a pre-prepare and prepares for its hash |
| Pbft.Engine.HandlePrepare | internal/core/consensus/pbft.go:402-484 | counts a vote and commits when the slot becomes prepared, at most once |
| Pbft.Engine.HandleCommit | internal/core/consensus/pbft.go:487-540 | counts a vote and hands the block over when the slot becomes committed, at most once |
| Pbft.PrePrepareIsAccepted | internal/core/consensus/pbft.go:316-366 | a pre-prepare is accepted exactly if it is of the engine's view, from the validator at the position of the primary's view modulo their number, and has a block; what it replaces, keeps and is answered with |
| Pbft.PrepareIsCounted | internal/core/consensus/pbft.go:402-451 | a prepare is counted exactly for a known pre-prepare of its hash, and a commit sent exactly once two thirds rounded down have voted |
| Pbft.CommitIsCounted | internal/core/consensus/pbft.go:487-550 | a commit is counted exactly for a known slot of its hash, and the block handed over exactly once more than two thirds have voted |
| Pbft.RefusalsTellTheTruth | internal/core/consensus/pbft.go:288-535 | each error of the three handlers names a condition that holds |
| PbftSafety.StoredPrePreparesAreThePrimarys | internal/core/consensus/pbft.go:316-353 | in every run, the pre-prepare in a correct node's slot came from the primary of the view the node had when it accepted it |
| PbftSafety.HandlerEffect | internal/core/consensus/pbft.go:288-524 | a handler touches one slot, never lowers its phase, and sends a commit only when the slot becomes prepared |
| PbftSafety.StepKeepsInv | internal/core/consensus/pbft.go:288-524 | every step of the network, overwriting or not, keeps the invariant on slots and commits |
| PbftSafety.RunKeepsInv | internal/core/consensus/pbft.go:288-524 | the invariant holds in every run |
| PbftSafety.RunKeepsCoherent | internal/core/consensus/pbft.go:344-353 | in guarded runs the recorded votes of correct nodes name hashes that may change to the slot's hash |
| PbftSafety.OneCommitPerNode | internal/core/consensus/pbft.go:439-447 | in every run, a correct node commits to at most one hash for a sequence number, in whatever views, and that hash was proposed |
| PbftSafety.DecisionHasQuorum | internal/core/consensus/pbft.go:507-521 | behind every decision of a guarded run stands a quorum whose correct members each sent a commit for its hash |
| PbftSafety.Agreement | internal/core/consensus/pbft.go:316-524 | in runs that override no recorded vote of a correct node, with at most FaultTolerance arbitrary validators, two correct nodes that decide a sequence number, at any moments and in any views, decide the same hash |
| PbftSafety.DecisionsWereProposed | internal/core/consensus/pbft.go:316-524 | what a correct node decides, some validator proposed for that sequence number |
| PbftSafety.WriteOnceRunIsGuarded | internal/core/consensus/pbft.go:344-353 | runs in which slot hashes are written once and are not zero satisfy the guard of agreement |
| PbftSafety.AgreementWhenHashesAreWrittenOnce | internal/core/consensus/pbft.go:316-524 | agreement for runs in which slot hashes are written once and are not zero |
| PbftOverwriting.AffordablePoliciesAgree | internal/core/consensus/pbft.go:316-524 | with none, one, two, three, or four and more validators, all runs that follow an affordable policy agree |
| PbftOverwriting.OverwritingBreaksAgreement | internal/core/consensus/pbft.go:344-353 | for any two or more validators, a run without faults in which two different nodes hand over blocks of different hashes, overwriting at one node only from four validators on |
| PbftOverwriting.AgreementExactlyWhenAffordable | internal/core/consensus/pbft.go:316-524 | for any list of validators and any policy on overwriting voted hashes, all runs agree if and only if the policy lets none through (from four validators on), leads nowhere and back (two or three), or is any (at most one) |
| PbftOverwriting.EngineAgreesOnlyAlone | internal/core/consensus/pbft.go:344-353 | the engine, which lets every overwriting through, agrees in every run if and only if there is at most one validator |
| PbftOverwriting.FollowingRunIsGuarded | internal/core/consensus/pbft.go:316-524 | in every run that follows a policy, each recorded vote names a hash from which the policy leads to the slot's hash |
| Merkle.BuildTree | internal/core/blockchain/merkle.go:75-100 | the recursive builder's tree is hashed correctly at every node and its root hash is the tree root |
| Merkle.CalculateMerkleRoot | internal/core/blockchain/types.go:278-307 | the iterative root is the same tree root; the empty list has the zero hash |
| Merkle.GetProof | internal/core/blockchain/merkle.go:118-172 | a proof exists exactly for an index in range and carries the siblings and sides on the way to the root |
| Merkle.SiblingsLeadToRoot | internal/core/blockchain/merkle.go:118-191 | climbing along the generated siblings ends at the root, in as many steps as the tree has levels |
| Merkle.Verify | internal/core/blockchain/merkle.go:177-191 | the verdict is whether the climb ends at the given root; fewer flags than hashes panic |
| Merkle.GeneratedProofsVerify | internal/core/blockchain/merkle.go:118-191 | the proof generated for any index of any non-empty list is accepted against the root |
| Merkle.VerifiedLeafIsInTree | internal/core/blockchain/merkle.go:75-191 | an accepted proof of the tree's height carries the leaf at the position its flags spell, duplicates folded back |
| Merkle.SidesSpellTheIndex | internal/core/blockchain/merkle.go:118-172 | the flags of a generated proof spell the index it was made for |
| Merkle.RootBindsLeaves | internal/core/blockchain/merkle.go:75-108 | leaf lists of equal length with equal roots are equal |
| Merkle.PaddedListHasSameRoot | internal/core/blockchain/merkle.go:75-100 | a list of odd length and the list with its last leaf repeated have one root |
| Merkle.InnerNodesVerify | internal/core/blockchain/merkle.go:177-191 | for every inner node a proof shorter by its height carries it as leaf and is accepted against the same root |
| Merkle.SmallTrees | internal/core/blockchain/merkle.go:75-191 | roots and proofs of one, two and three leaves written out: left first, last doubled, flag for the right |
| Encoding.HeaderBodyInjective | internal/core/blockchain/types.go:157-171 | headers with equal hashed bytes agree on every field but the hash, whatever the signature lengths |
| Encoding.SerializeWithoutHash | internal/core/blockchain/types.go:157-171 | writes the header's fields in order, big-endian, the timestamp in two's complement |
| Encoding.Deserialize | internal/core/blockchain/types.go:182-207 | succeeds exactly from 144 bytes on, and fails by length otherwise |
| Encoding.DeserializeAfterSerialize | internal/core/blockchain/types.go:174-207 | decoding an encoded header gives the header back, for every signature length and negative timestamps |
| Encoding.SerializeAfterDeserialize | internal/core/blockchain/types.go:174-207 | encoding a decoded header gives the bytes back, for every input of at least 144 bytes |
| Encoding.SerializeTransaction | internal/core/blockchain/types.go:319-334 | writes the transaction's fields in order, the data preceded by the low 32 bits of its length |
| Encoding.TransactionBodyInjective | internal/core/blockchain/types.go:319-334 | transactions with equal hashed bytes agree on every hashed field, for data of any length |
| Encoding.TransactionLayout | internal/core/blockchain/types.go:319-334 | addresses, kind, data length and data are found at their offsets |
| Encoding.TransactionNumbers | internal/core/blockchain/types.go:319-334 | nonce, gas price, gas limit, value and timestamp are read back from their offsets |
| Encoding.FourBytes | internal/core/blockchain/types.go:319-334 | numbers are written with the most significant byte first |
| Encoding.WriteFlags | internal/core/blockchain/merkle.go:211-221 | packs eight flags to a byte, the first in the lowest bit |
| Encoding.PackInjective | internal/core/blockchain/merkle.go:211-221 | flag lists of equal length with equal packed bytes are equal |
| Encoding.PackedBit | internal/core/blockchain/merkle.go:211-221 | flag i is bit i modulo 8, from the lowest, of byte i divided by 8 |
| Encoding.ProofLayout | internal/core/blockchain/merkle.go:194-224 | index, leaf, count, each hash and the flags are found at their offsets |
| Encoding.ProofBytesInjective | internal/core/blockchain/merkle.go:194-224 | proofs with a 32-bit index and equally many, fewer than 256, hashes and flags have different encodings |
| BlockStore.PutBlock | internal/core/blockchain/storage.go:29-69 | one batch stores header, body, height entry and transactions, or nothing |
| BlockStore.StoredBlockByHash | internal/core/blockchain/storage.go:29-104 | a stored block is read back by its hash, and what is read for every other hash stays |
| BlockStore.StoredHeightIndex | internal/core/blockchain/storage.go:29-164 | storing a block changes one height entry and not the latest height |
| BlockStore.StoredBlockByHeight | internal/core/blockchain/storage.go:29-125 | a stored block is read back by its height, and a new block leaves all other heights as they were |
| BlockStore.StoringTheHeight | internal/core/blockchain/storage.go:107-164 | the latest height is read back as written and its write touches no block |
| BlockStore.StoredTransactions | internal/core/blockchain/storage.go:58-66 | storing a block makes exactly its transactions known in addition |
| Chain.Blockchain.New | internal/core/blockchain/chain.go:26-61 | opening reads the tip from the store or fails |
| Chain.Blockchain.ValidateBlock | internal/core/blockchain/chain.go:110-166 | the first failing check, in order, with the expected height wrapping at 2^64 |
| Chain.Blockchain.ValidateTransaction | internal/core/blockchain/chain.go:169-189 | the first failing check of a transaction |
| Chain.Blockchain.AddBlock | internal/core/blockchain/chain.go:82-107 | validates, stores in two writes either of which may fail, and moves the tip only after both |
| Chain.ValidExactlyIfProperAndFitting | internal/core/blockchain/chain.go:110-189 | a block passes validation if and only if hashes, signatures, root and limits are right and it is new, next, linked and without known transactions |
| Chain.AppendedExactlyIfProperAndFitting | internal/core/blockchain/chain.go:82-107 | such a block is appended if and only if both writes work, and is then the tip and found at its height |
| Chain.EveryBlockIsProper | internal/core/blockchain/chain.go:82-189 | after any run every block found at any height has right hashes and root, signatures missing or passing, and keeps within the limits |
| Chain.RefusalsTellTheTruth | internal/core/blockchain/chain.go:110-189 | each error of validation names a condition that holds, with the transaction it is about |
| Chain.Blockchain.GetBlocksRange | internal/core/blockchain/chain.go:252-274 | exactly the blocks of the range cut to the latest height, or the first missing height, or a panic on the wrapped capacity; in a good chain always linked blocks of consecutive heights |
| Chain.OpeningFindsTheTip | internal/core/blockchain/chain.go:26-61 | reopening a good chain finds the tip that was remembered |
| Chain.OpensExactly | internal/core/blockchain/chain.go:26-61 | for any store, when it opens and with which tip |
| Chain.OperationKeepsChain | internal/core/blockchain/chain.go:82-197 | every operation, with any outcome of its writes, keeps the chain good and its history unchanged |
| Chain.RunKeepsChain | internal/core/blockchain/chain.go:26-197 | after any appends, failed writes, crashes and reopenings, every height up to the latest resolves to a block of that height with the right hash, linked to its predecessor |
| Chain.RunKeepsHistory | internal/core/blockchain/chain.go:82-197 | no run changes a block at or below the latest height, which never falls |
| Chain.ReopenAfterRun | internal/core/blockchain/chain.go:26-61 | reopening after any run finds the height and hash the node remembered |
| Chain.SameHashSameHistory | internal/core/blockchain/chain.go:110-166 | blocks with one hash in two good chains have one height and identical headers at every height below |
| Chain.SameTipSameHistory | internal/core/blockchain/chain.go:110-166 | good chains with equal tip hashes have equal heights and identical headers at every height |
| Chain.GoodChainsAnswerRanges | internal/core/blockchain/chain.go:252-274 | the blocks that a good chain stores from any height on have consecutive heights and are linked |
| Chain.LostHeightBlocksForEver | internal/core/blockchain/chain.go:82-189 | after a batch that was written and a height that was not, the block and every block with one of its transactions are refused after every later run |
| LightClient.LightClient.AddHeader | internal/core/blockchain/lightclient.go:73-106 | accepts or refuses a header and evicts as specified |
| LightClient.LightClient.ValidateHeader | internal/core/blockchain/lightclient.go:109-148 | the first failing check of an offered header |
| LightClient.AcceptedExactlyIfLinkedAndGenuine | internal/core/blockchain/lightclient.go:73-148 | a header is accepted if and only if its height is free, its parent stored and named, its hash right and its signature missing, passing or not asked for |
| LightClient.RefusalsTellTheTruth | internal/core/blockchain/lightclient.go:109-148 | each error names a condition that holds |
| LightClient.LightClient.EvictOldHeaders | internal/core/blockchain/lightclient.go:161-175 | removes the lowest headers above height 0 and below the latest from both maps, as many as are too many |
| LightClient.EvictRaisesWindow | internal/core/blockchain/lightclient.go:161-175 | evicting from a contiguous window raises its lower end by the number removed, never past the latest |
| LightClient.ReofferedHeightIsForgotten | internal/core/blockchain/lightclient.go:73-175 | an evicted height 1 that is offered again is accepted and at once evicted, leaving the state as it was |
| LightClient.NextHeaderMovesWindow | internal/core/blockchain/lightclient.go:73-175 | a valid header on top of the window becomes the latest and the window stays good |
| LightClient.AddKeepsWindow | internal/core/blockchain/lightclient.go:73-175 | offering any header keeps the window good |
| LightClient.RunKeepsWindow | internal/core/blockchain/lightclient.go:73-175 | after any run of offers and resets the stored heights are none or 0 and one range that ends at the latest, linked, with exactly inverse maps and a full window once anything was evicted |
| LightClient.WindowAfterRun | internal/core/blockchain/lightclient.go:73-175 | the same in terms of what a caller sees, with right hashes and signatures and at most max(MaxHeadersInMemory, 2) headers |
| LightClient.LightClient.VerifyTransaction | internal/core/blockchain/lightclient.go:288-304 | the verdict on a proof against a stored header; the transaction hash is not looked at |
| LightClient.VerdictsTellTheTruth | internal/core/blockchain/lightclient.go:288-304 | each verdict on a proof is given exactly under its condition |
| LightClient.AcceptedBlocksProveTheirTransactions | internal/core/blockchain/lightclient.go:288-304 | the proof generated for any transaction of an accepted block is accepted against its stored header |
| LightClient.AcceptedProofsNameATransaction | internal/core/blockchain/lightclient.go:288-304 | an accepted proof of the right length carries the hash of the block's transaction at the position its flags spell |
| LightClient.ShorterProofsAreAccepted | internal/core/blockchain/lightclient.go:288-304 | proofs of inner nodes of an accepted block's tree are accepted against its stored header |
| Forks.FindCommonAncestor | internal/core/blockchain/fork.go:194-242 | terminates; finds an ancestor exactly if the paths meet, the first hash of the tip's path that is on the new head's, with the tip's path strictly above it |
| Forks.HandleReorganization | internal/core/blockchain/fork.go:166-191 | accepts a head exactly if the paths meet and the number of abandoned blocks is within the limit |
| Forks.AboveTheAncestor | internal/core/blockchain/fork.go:194-242 | the hashes above the ancestor are exactly those of the tip's path that are not on the new head's |
| Forks.AncestorIsSymmetric | internal/core/blockchain/fork.go:194-242 | the search from the other side finds the same ancestor |
| Forks.PathsMerge | internal/core/blockchain/fork.go:199-212 | paths that meet are the same from there on |
| Forks.PathIsDistinct | internal/core/blockchain/fork.go:199-212 | no hash occurs twice on a path |
| Forks.RunKeepsRooted | internal/core/blockchain/chain.go:110-197 | in every store a run produces, blocks are stored under their hash and above height 1 their parent is stored one below |
| Forks.RunStoresFall | internal/core/blockchain/chain.go:122-127 | on such a store heights fall along parents if and only if no block of height 1 names a stored block above height 0 |
| Forks.FirstBlocksCanClimb | internal/core/blockchain/chain.go:122-127 | a run whose store violates that: a second first block names the one before it, whose height write was lost |
| Forks.TipPathIsTheChain | internal/core/blockchain/fork.go:214-239 | the path from a good chain's tip is the chain's blocks by descending height |
| PriorityQueue.Queue.Push | internal/core/txpool/pool.go:70-85 | adds an item and sifts it up |
| PriorityQueue.Queue.Pop | internal/core/txpool/pool.go:70-93 | takes the top, sifts the last item down and cuts the slice |
| PriorityQueue.PushAdds | internal/core/txpool/pool.go:70-85 | pushing adds exactly that item and keeps the heap |
| PriorityQueue.PopTakesBest | internal/core/txpool/pool.go:70-93 | popping takes out exactly one item that no other is better than and keeps the heap |
| PriorityQueue.UpRestoresHeap | internal/core/txpool/pool.go:70-85 | sifting up repairs a heap with one item too good for its place |
| PriorityQueue.DownRestoresHeap | internal/core/txpool/pool.go:70-93 | sifting down repairs a heap with one item too bad for its place |
| TxPool.TxPool.AddTx | internal/core/txpool/pool.go:127-180 | admits or refuses a transaction and enters it in both indexes and the heap of its band |
| TxPool.TxPool.ValidateTx | internal/core/txpool/pool.go:183-204 | the first failing check of an offered transaction |
| TxPool.TxPool.GetPendingTxs | internal/core/txpool/pool.go:207-238 | drains the three heaps in turn, skipping transactions that are no longer pending |
| TxPool.TxPool.RemoveTx | internal/core/txpool/pool.go:241-259 | forgets a transaction in both indexes and leaves its heap entry |
| TxPool.TxPool.CleanupExpired | internal/core/txpool/pool.go:323-349 | forgets exactly the expired transactions, in whatever order they are visited |
| TxPool.AdmittedExactly | internal/core/txpool/pool.go:127-204 | a transaction is admitted if and only if it is new, there is room in pool and account, its hash is right and its signature missing or passing; which error comes first |
| TxPool.AcceptedAreGenuine | internal/core/txpool/pool.go:183-204 | every item a run accepted has the right hash and a signature that is missing or passes |
| TxPool.CleanupKeepsTheYoung | internal/core/txpool/pool.go:323-349 | after a clean-up exactly those are pending that were and are not older than the lifetime, unchanged |
| TxPool.PendingAfter | internal/core/txpool/pool.go:127-349 | what each operation does to the pending transaction of each hash, both ways |
| TxPool.ListedAfter | internal/core/txpool/pool.go:127-349 | what each operation does to the account index at each sender and nonce, both ways |
| TxPool.AcceptedStaysPending | internal/core/txpool/pool.go:127-349 | an accepted transaction is pending at the end of any run that neither removes its hash nor cleans up past its lifetime |
| TxPool.EndedIsNotHandedOut | internal/core/txpool/pool.go:207-349 | after a removal, or a clean-up past the lifetime, a hash is not handed out in any run until it is accepted again |
| TxPool.DrainTakesBest | internal/core/txpool/pool.go:214-219 | draining one heap takes the best live entries in order and loses no other live one |
| TxPool.ThreeHeapsActAsOne | internal/core/txpool/pool.go:207-238 | a call hands out the best min(max, live) entries across all bands, by priority and then by time, and leaves the other live ones |
| TxPool.EveryCallHandsOutTheBest | internal/core/txpool/pool.go:127-259 | so does every call at any point of any run |
| TxPool.ApplyKeepsGood | internal/core/txpool/pool.go:127-349 | every operation keeps heaps, bands, both indexes and the size limits |
| TxPool.ApplyConserves | internal/core/txpool/pool.go:127-349 | every operation keeps handed out and queued items within the accepted ones and loses no pending item |
| TxPool.RunKeepsGood | internal/core/txpool/pool.go:127-349 | both invariants hold after any run of adds, drains, removals and expiries |
| TxPool.HandedOutAtMostAsOftenAsAccepted | internal/core/txpool/pool.go:127-259 | in any run no hash is handed out more often than it was accepted |
| RateLimit.RateLimiter.Allow | internal/app/api/ratelimit.go:92-150 | finds or makes the client's bucket, refills it and answers |
| RateLimit.ClientLimiter.Take | internal/app/api/ratelimit.go:119-150 | refill up to the burst size and one token for an allowed request, with the reported numbers |
| RateLimit.RateLimiter.CleanupIdle | internal/app/api/ratelimit.go:160-170 | deletes exactly the clients idle for more than ten minutes |
| RateLimit.RunRemembers | internal/app/api/ratelimit.go:92-175 | after any run a client is remembered exactly if no clean-up came more than 600 seconds after its last request |
| RateLimit.NextSimulates | internal/app/api/ratelimit.go:92-175 | one event keeps the evicting limiter equal to the other but for clients that are full, and gets the same answer |
| RateLimit.EvictionIsInvisible | internal/app/api/ratelimit.go:38-175 | on every sequence of requests and clean-ups the limiter answers like one that never deletes |
| RateLimit.RunKeepsGood | internal/app/api/ratelimit.go:119-150 | tokens stay between nothing and the burst size in every run |
| RateLimit.NextSpends | internal/app/api/ratelimit.go:119-175 | an allowed request costs exactly one token; nothing else takes or brings any at that instant |
| RateLimit.AllowedInIntervalIsBounded | internal/app/api/ratelimit.go:119-150 | in every interval of every run, wherever it begins, a client's allowed requests number at most the burst size plus the interval's refill |
| RateLimit.RemainingIsExact | internal/app/api/ratelimit.go:138-145 | of n further requests at that instant, whatever happens between them, exactly min(n, remaining) are allowed |
| RateLimit.WaitIsCutToSeconds | internal/app/api/ratelimit.go:147-149 | one second more than the reported time is enough, and the reported time is enough if and only if the missing part of a token takes whole seconds |
| RateLimit.WaitingAsToldIsNotEnough | internal/app/api/ratelimit.go:147-149 | a client with half a token at one a second is told to wait 0 seconds and denied again |
| RateLimit.ResetIsCutToSeconds | internal/app/api/ratelimit.go:139-144 | one second more than the reported reset time fills the bucket, and the reset time fills it if and only if the missing tokens take whole seconds |
| Platoons.Platoon.AddMember | internal/service/platoon/types.go:195-221 | adds a member at the end or fails as a duplicate, banned or one too many |
| Platoons.Platoon.RemoveMember | internal/service/platoon/types.go:224-241 | removes a member by swapping with the last and numbers the rest anew |
| Platoons.Platoon.AddValidator | internal/service/platoon/types.go:259-271 | lists a validator and sets its role |
| Platoons.Platoon.RemoveValidator | internal/service/platoon/types.go:274-288 | removes a validator in order and sets its role |
| Platoons.Platoon.HandOver | internal/service/platoon/service.go:359-404 | makes the first validator other than the leader the leader, if there is one among at least two validators |
| Platoons.WithoutMemberEffect | internal/service/platoon/types.go:224-241 | a removal takes out exactly that member; the others keep their roles and their positions become their indexes |
| Platoons.CreatedIsGood | internal/service/platoon/service.go:74-108 | a new platoon is good and its leader has the role of a validator |
| Platoons.JoinedKeepsGood | internal/service/platoon/service.go:222-246 | an approval adds exactly that vehicle, as a validator if there are fewer than seven, activates a forming platoon exactly at four validators, and keeps the platoon good |
| Platoons.LeftKeepsGood | internal/service/platoon/service.go:285-326 | a departure removes exactly that vehicle from members and validators, leaves a member as leader and the platoon non-empty and good, understaffed exactly when it was active and fewer than four remain |
| Platoons.AppointedKeepsGood | internal/service/platoon/service.go:530-551 | appointing keeps the platoon good |
| Platoons.DemotedKeepsGood | internal/service/platoon/service.go:573-591 | demoting, the leader included, keeps the platoon good |
| PlatoonService.Service.CreatePlatoon | internal/service/platoon/service.go:74-141 | creates, keeps and stores a platoon, and records it if the write works |
| PlatoonService.Service.SubmitJoinRequest | internal/service/platoon/service.go:144-192 | accepts a request or fails with the first failing check |
| PlatoonService.Service.ProcessJoinRequest | internal/service/platoon/service.go:195-282 | decides a request once, by the leader, and adds the vehicle if approved |
| PlatoonService.Service.LeavePlatoon | internal/service/platoon/service.go:285-404 | a departure with its change of leader, understaffing, write and entries |
| PlatoonService.Service.DissolvePlatoon | internal/service/platoon/service.go:407-450 | dissolves a platoon once |
| PlatoonService.Service.AppointValidator | internal/service/platoon/service.go:530-570 | appoints a member that is not a validator, on the leader's word |
| PlatoonService.Service.DemoteValidator | internal/service/platoon/service.go:573-610 | demotes a validator that is not the only one, on the leader's word |
| PlatoonService.Service.CheckTimeouts | internal/service/platoon/service.go:720-736 | checks every platoon, in any order and with any outcome of each write: the active ones idle for more than 300 seconds are dissolved and no other changes |
| PlatoonService.ApproveIsSound | internal/service/platoon/service.go:222-258 | an approval keeps the platoon good, changes it exactly if the vehicle can join, and is then told by the history exactly when the write works |
| PlatoonService.LeaveIsSound | internal/service/platoon/service.go:285-404 | a departure keeps the platoon good and non-empty, changes it exactly if the vehicle can leave, and is then told by the history exactly when the write works |
| PlatoonService.ChangeIsSound | internal/service/platoon/service.go:285-610 | every operation on a platoon keeps it good, moves its status forward only, changes it exactly under its condition and is told by the history exactly when the write works or nothing changed |
| PlatoonService.ChangeEffect | internal/service/platoon/service.go:285-610 | exactly what each operation on a platoon makes of members, validators, leader, status, bans and activity, only the leader changing validators and a check dissolving after 300 seconds |
| PlatoonService.EntriesSay | internal/service/platoon/service.go:329-606 | exactly which entries each change records, with the names given |
| PlatoonService.RefusalsTellTheTruth | internal/service/platoon/service.go:285-591 | each error of an operation on a platoon names a condition that holds |
| PlatoonService.CreationAfter | internal/service/platoon/service.go:74-141 | when a creation succeeds, with the limits on its parameters written out, and what it creates |
| PlatoonService.RequestAfter | internal/service/platoon/service.go:144-282 | a request is made exactly when the platoon takes it, and decided exactly by the platoon's leader while it is pending; nothing else touches it |
| PlatoonService.DecidedOnce | internal/service/platoon/service.go:204-206 | in every run a decided request stays as it was decided, unless its identifier is drawn again |
| PlatoonService.DecisionAfter | internal/service/platoon/service.go:195-282 | a leader's approval of a pending request of a vehicle that can join adds exactly it; every other decision adds nobody |
| PlatoonService.OnlyTheLeaderAdmits | internal/service/platoon/service.go:204-234 | an operation that adds a member to an existing platoon is its leader's approval of a pending request of that vehicle |
| PlatoonService.EveryMemberWasAdmitted | internal/service/platoon/service.go:204-234 | so is every such step of every run |
| PlatoonService.RequestRefusalsTellTheTruth | internal/service/platoon/service.go:144-216 | each error of a new request and of a decision names a condition that holds |
| PlatoonService.RunKeepsGood | internal/service/platoon/service.go:74-610 | in every run every platoon is good |
| PlatoonService.StructureAfterRun | internal/service/platoon/types.go:195-288 | members distinct, positions their indexes, at most MaxVehicles; validators distinct members, exactly those with a leader's or validator's role; the leader a member and alone in that role; at least four members while active |
| PlatoonService.StatusMovesForward | internal/service/platoon/service.go:243-450 | in every run a platoon's status only moves along forming, active, understaffed, dissolved, and dissolved is final |
| PlatoonService.CreationIsTold | internal/service/platoon/service.go:110-124 | a creation is told by the history when its write works, and not when it fails on a new identifier |
| PlatoonService.OperationIsTold | internal/service/platoon/service.go:195-610 | a told platoon stays told through an operation exactly when it is another platoon's, its write works, or it changes nothing, which the state before it decides |
| PlatoonService.HistoryTellsEveryPlatoon | internal/service/platoon/service.go:652-657 | in every run whose writes work, folding a platoon's history gives its members, validators, leader and status, after failed operations too |
| AuditLog.AuditService.RecordStateChange | internal/service/state/service.go:84-116 | refuses exactly an invalid event and otherwise appends a record |
| AuditLog.AuditService.CreateAuditRecord | internal/service/state/service.go:201-220 | appends a record linked to the last hash |
| AuditLog.AuditService.AnchorAuditLog | internal/service/state/service.go:339-375 | marks exactly the unanchored records with the height and their root |
| AuditLog.AuditService.CalculateMerkleRoot | internal/service/state/service.go:378-408 | the Merkle root of the records' hashes |
| AuditLog.RecordsTellTheRun | internal/service/state/service.go:84-220 | after any run the events, identifiers and times of the records are exactly those of the run's valid events, in order |
| AuditLog.AnchoredAtTheHeight | internal/service/state/service.go:362-366 | anchoring gives the height to exactly the records that had none |
| AuditLog.AnchorKeepsChain | internal/service/state/service.go:339-375 | anchoring at any height never breaks the chain |
| AuditLog.AnchorAddsBatch | internal/service/state/service.go:339-408 | anchoring at a non-zero height makes one more contiguous batch of everything unanchored, whose root can be recomputed |
| AuditLog.AnchorAddsNothing | internal/service/state/service.go:339-375 | anchoring at height 0, or with nothing left, makes no batch |
| AuditLog.RunKeepsLogGood | internal/service/state/service.go:201-408 | in every run the records are chained up to the last hash and the anchored ones are a prefix split into batches with recomputable roots |
| AuditLog.AnchoredForGood | internal/service/state/service.go:347-366 | from any log on, no later run changes an anchored record or a hashed field |
| AuditLog.SameLastHashSameRecords | internal/service/state/types.go:101-120 | chained logs of one length with one last hash agree on every hashed field of every record |
| AuditLog.SameLastHashSameEvents | internal/service/state/types.go:81-120 | logs of two runs with one length and one last hash record the same events at the same places |

## Left out

- View changes: the contents of view-change and new-view messages are not modelled; a view change is an arbitrary change of view, primary and role, which agreement allows.
- Authenticity: messages of correct nodes cannot be forged; this is assumed, not derived from Sign and Verify, which hash different bytes.
- Delivery to oneself: the engine hands its own broadcast to its handler inside its lock; here it is a later delivery.
- Block data: agreement is about the block hash; the engine does not compare it with the block data. The block handed over on commit goes to the chain as any other block.
- Pbft.Engine.HandleMessage: message verification and the two view-change messages, as the first lines of this section say.
- Pbft.Engine.HandleCommit: the error of the chain when it refuses the block handed over; the slot is committed all the same.
- Malformed payloads: the errors of unreadable JSON in messages and stored records, which change nothing.
- Request pools, batching, proposals' contents, timers and statistics of the engine.
- Encoding.Deserialize: for 32 to 123 bytes the source slices past the length and panics unless the slice has spare capacity; the model has one error for it, and does not model the fields assigned before a failure.
- Chain.Blockchain.GetBlocksRange: a range that ends at height 2^64 - 1 is excluded, because the source's loop wraps there instead of stopping.
- Chain.RunKeepsHistory: heights up to 2^64 - 1, because the source's next height wraps to 0 there.
- Chain: genesis creation, which the node starts without and whose height 0 the height check would refuse; block creation; lookup of transactions.
- LightClient: writing headers to storage, whose failure is only logged; range queries and statistics. A stored header is a value, so a caller who changes a header after handing it over is not modelled.
- Forks: fork detection, scoring, confirmation and pruning. The reorganization itself only logs.
- TxPool.TxPool.GetPendingTxs: the three equal loops are one method called three times; a negative maximum panics in the source and is excluded by the type.
- TxPool: the same nonce offered twice replaces the account entry, so the account limit bounds entries and not pending transactions; the model does the same.
- RateLimit: floating point is modelled by real numbers and the clock never goes back; the client's address and the HTTP answer.
- Platoons: names, times other than the last activity, and member status, which no decision reads. Join requests are values in a map rather than shared objects.
- PlatoonService: loading platoons from storage, which finds nothing that is not in memory within one run and brings no history after a restart; event handlers; random validator selection.
- PlatoonService.Service.CheckTimeouts: other operations between the checks of two platoons; in a run each check is an operation of its own.
- PlatoonService.StatusMovesForward: an identifier drawn a second time starts a new platoon and is excluded.
- AuditLog: events by entity, vehicle histories, anomalies, retention and subscribers; a record is hashed as its four fields rather than as their JSON text.
- Locks and goroutines: every public operation is one atomic step.
- ECDSA, Keccak-256, JSON, LevelDB, the network, discovery, the HTTP interface, identities, messages, checkpoints and the executor.
