# CKB header verifiers and transaction-pool chunk queue, in Dafny

This project models two pieces of a CKB full node and proves properties of them.

- **Header verifiers** (`header_verifier.dfy`, module `HeaderVerifier`). A candidate block header is checked against its
  parent and its context by five independent checks. `VersionVerifier` checks the protocol version.
  `NumberVerifier` checks that the height is the parent's plus one. `EpochVerifier` checks that the epoch field is
  well formed and continues the parent's epoch. `TimestampVerifier` checks the timestamp against the ancestors' median
  time and a future bound. `PowVerifier` asks the proof-of-work engine. Each check is a pure function returning
  `Outcome<E>`: `Pass`, or `Fail(e)` where `e` carries the values compared. The implementation of these verifiers is
  not part of this model. Their behaviour is taken from their tests
  (`verification/src/tests/header_verifier.rs`). Every test vector there is a lemma here.
- **Chunk queue** (`chunk.dfy`, module `Chunk`). `ChunkQueue` is the transaction pool's ordered working set for
  re-verification. It is an insertion-ordered map from proposal short id to `Entry`, plus a one-slot memo `front`
  that holds the entry last popped. It is a class whose fields `inner` (a sequence of `(id, entry)` pairs, oldest
  first) and `front` (an `Option<Entry>`) are updated in place. `Valid()` is its invariant: keys are distinct, each
  key is the short id of its entry's transaction, and the entry in `front` is no longer in the map.
- `ints.dfy` (module `Ints`) defines `u32` and `u64` as bounded subsets of `int`.

Inputs outside the model become parameters:

- the current time `now` and the ancestors' median time, in `VerifyTimestamp`;
- the proof-of-work engine's `verify` operation, as a function `engine: Header -> bool`, in `VerifyPow`;
- the short-id derivation of a transaction, as the function `shortId` given to the `ChunkQueue` constructor.

## Assumptions about the verifiers

The verifier implementation is not part of this model, so three points are decided here rather than read off code.

- **Epoch continuity.** The model uses this rule. If `parent.index + 1 == parent.length`, the current epoch must be
  `(parent.number + 1, 0, any length)`. Otherwise it must be `(parent.number, parent.index + 1, parent.length)`.
  The tests agree with this rule. They do not show what happens for a rollover from a parent that is not at its last
  index, because every accepted rollover in them has the parent `(1, 9, 10)`. Under this rule such a rollover is
  rejected.
- **Genesis parent.** Every epoch test uses a parent numbered 1. The model applies the continuity check whatever
  the parent's number is. It has no exemption for a genesis parent.
- **Timestamp equal to the median.** The tests show that `median + 1` is accepted and `median - 1` is rejected. They
  do not decide `median` itself. The model accepts it: a header is too old only when its timestamp is strictly
  below the median.

`ALLOWED_FUTURE_BLOCKTIME` is 15 000 ms. It is defined in the verification crate's root, which is not part of this
model.

## Model

| member | source | states |
|---|---|---|
| `HeaderVerifier.VerifyVersion` | verification/src/tests/header_verifier.rs:24-38 | passes iff the header's version is the expected one; otherwise fails with `BlockVersionError{expected, actual}` carrying both |
| `HeaderVerifier.VersionVector` | verification/src/tests/header_verifier.rs:24-38 | a header one version above the expected one fails with `BlockVersionError{expected, expected + 1}` |
| `HeaderVerifier.VerifyNumber` | verification/src/tests/header_verifier.rs:121-134 | passes iff the header's number is the parent's plus one; otherwise fails with `NumberError{expected: parent + 1, actual: header}` |
| `HeaderVerifier.NumberVector` | verification/src/tests/header_verifier.rs:121-134 | parent 10 and header 10 fail with `NumberError{expected: 11, actual: 10}` |
| `HeaderVerifier.NumberChainConsecutive` | verification/src/tests/header_verifier.rs:121-134 | along any chain where each header passes against the previous one, the k-th header is numbered first + k |
| `HeaderVerifier.VerifyEpoch` | verification/src/tests/header_verifier.rs:136-247 | fails `Malformed{value: current}` iff the current epoch has length 0 or index >= length; fails `NonContinuous{current, parent}` iff it is well formed but does not follow the parent; passes iff well formed and following |
| `HeaderVerifier.EpochAcceptsExactlyNext` | verification/src/tests/header_verifier.rs:216-246 | after a well-formed parent, the accepted epochs are exactly the reference next epoch: the next index of the same epoch and length, or, after the last index, index 0 of the next epoch with any positive length |
| `HeaderVerifier.EpochRejectsAfterMalformedParent` | verification/src/tests/header_verifier.rs:138-160 | no current epoch is accepted after a parent whose own epoch field is malformed |
| `HeaderVerifier.EpochIgnoresOtherFields` | verification/src/tests/header_verifier.rs:193-238 | the outcome depends only on the two epoch fields, not on block numbers or any other header field |
| `HeaderVerifier.EpochChainAdvances` | verification/src/tests/header_verifier.rs:161-246 | along any chain of accepted epochs, the (number, index) position strictly increases and the epoch number rises by at most one per block |
| `HeaderVerifier.EpochMalformedVectors` | verification/src/tests/header_verifier.rs:138-160 | (1,0,0), (1,10,0), (1,10,5) and (1,10,10) each fail with `Malformed` carrying that epoch, for any parent |
| `HeaderVerifier.EpochNonContinuousVectors` | verification/src/tests/header_verifier.rs:161-215 | the seven discontinuous (parent, current) pairs each fail with `NonContinuous{current, parent}` |
| `HeaderVerifier.EpochContinuousVectors` | verification/src/tests/header_verifier.rs:216-246 | (1,5,10)→(1,6,10), (1,9,10)→(2,0,10) and (1,9,10)→(2,0,11) pass |
| `HeaderVerifier.VerifyTimestamp` | verification/src/tests/header_verifier.rs:40-119 | passes iff median <= timestamp <= now + ALLOWED_FUTURE_BLOCKTIME; below the median fails `BlockTimeTooOld{min: median, actual}`; above the bound fails `BlockTimeTooNew{max: now + ALLOWED_FUTURE_BLOCKTIME, actual}` |
| `HeaderVerifier.ConstantWindowMedian` | verification/src/tests/header_verifier.rs:18-22 | a window of equal timestamps has that timestamp as its only median, so the mock context's median is `now` |
| `HeaderVerifier.TimestampVector` | verification/src/tests/header_verifier.rs:40-60 | with the median equal to `now`, timestamp `now + 1` passes |
| `HeaderVerifier.TimestampTooOldVector` | verification/src/tests/header_verifier.rs:62-90 | timestamp `now - 1` fails `BlockTimeTooOld{min: now, actual: now - 1}` |
| `HeaderVerifier.TimestampTooNewVector` | verification/src/tests/header_verifier.rs:92-119 | timestamp `now + ALLOWED_FUTURE_BLOCKTIME + 1` fails `BlockTimeTooNew{max: now + ALLOWED_FUTURE_BLOCKTIME, actual}` |
| `HeaderVerifier.VerifyPow` | verification/src/tests/header_verifier.rs:249-264 | passes iff the engine accepts the header; otherwise fails with `InvalidNonce` |
| `HeaderVerifier.PowVector` | verification/src/tests/header_verifier.rs:249-264 | with an engine that always answers false, every header fails with `InvalidNonce` |
| `Chunk.EntryEqIgnoresRemote` | tx-pool/src/component/chunk.rs:11-21 | two entries with the same transaction are equal whatever their remote parts |
| `Chunk.EntryEqIsEquivalence` | tx-pool/src/component/chunk.rs:17-21 | entry equality is reflexive, symmetric and transitive |
| `Chunk.Lookup` | tx-pool/src/component/chunk.rs:82-84 | finds an entry iff the id is a key of the map, and the pair found is in the map |
| `Chunk.Without` | tx-pool/src/component/chunk.rs:82-84 | removing a set of ids leaves exactly the other keys, and only pairs that were there |
| `Chunk.WithoutAppend` | tx-pool/src/component/chunk.rs:82-91 | removal distributes over concatenation, so remaining entries keep their relative order |
| `Chunk.WithoutAbsent` | tx-pool/src/component/chunk.rs:82-84 | removing ids that are not keys changes nothing |
| `Chunk.WithoutUnion` | tx-pool/src/component/chunk.rs:86-91 | removing ids one set after another is removing their union, so one-by-one removal is removing all at once |
| `Chunk.DistinctLength` | tx-pool/src/component/chunk.rs:38-40 | with distinct keys, the number of pairs is the number of keys |
| `Chunk.ChunkQueue.constructor` | tx-pool/src/component/chunk.rs:31-36 | a new queue has an empty map and no front, and satisfies the invariant |
| `Chunk.ChunkQueue.Len` | tx-pool/src/component/chunk.rs:38-40 | the number of distinct keys in the map; an entry held only in `front` is not counted |
| `Chunk.ChunkQueue.IsEmpty` | tx-pool/src/component/chunk.rs:42-45 | true iff the map has no keys |
| `Chunk.ChunkQueue.IsFull` | tx-pool/src/component/chunk.rs:47-49 | true iff the map holds strictly more than DEFAULT_MAX_CHUNK_TRANSACTIONS (100) keys |
| `Chunk.ChunkQueue.ContainsKey` | tx-pool/src/component/chunk.rs:51-58 | true iff the id is the short id of the `front` entry or a key of the map |
| `Chunk.ChunkQueue.CleanFront` | tx-pool/src/component/chunk.rs:64-66 | drops `front` and nothing else; afterwards only the map's keys are contained |
| `Chunk.ChunkQueue.PopFront` | tx-pool/src/component/chunk.rs:68-80 | with `front` set, returns it and changes nothing, so repeated pops agree; otherwise moves the oldest map entry to `front` and returns it, or returns None on an empty map; the contained ids never change |
| `Chunk.ChunkQueue.RemoveChunkTx` | tx-pool/src/component/chunk.rs:82-84 | removes only that id from the map, returns the entry it held, keeps `front`; the id held in `front` gives None and stays contained |
| `Chunk.ChunkQueue.RemoveChunkTxs` | tx-pool/src/component/chunk.rs:86-91 | removes exactly the listed ids from the map, keeping the others in order, and keeps `front` |
| `Chunk.ChunkQueue.AddRemoteTx` | tx-pool/src/component/chunk.rs:93-109 | no change when the map holds more than 100 entries or the id is contained; otherwise appends `Entry{tx, remote: Some(remote)}`; never takes the length past 101 |
| `Chunk.ChunkQueue.AddTx` | tx-pool/src/component/chunk.rs:111-122 | returns true iff the id was in neither `front` nor the map; then appends `Entry{tx, remote: None}`, else changes nothing |
| `Chunk.ChunkQueue.Clear` | tx-pool/src/component/chunk.rs:124-128 | leaves the map empty and `front` None, so nothing is contained |
| `Chunk.BasicScenario` | tx-pool/src/component/chunk.rs:136-153 | the module's test: add succeeds, pop returns the entry (twice), the id stays contained, a second add fails, and after `clean_front` the id is gone |

## Left out

- The verifier implementation is not part of this model. The verifiers are reconstructed from their tests and
  design, with the assumptions listed above.
- The combined header-verification pipeline and its check order are not modelled, because no modelled file contains
  them.
- Wall-clock time, fake time and the mock median-time context are left out. `now` and the median are parameters.
  `IsMedianOf` gives only a relational meaning of "median", used to show that a window of equal timestamps has that
  timestamp as its median. The window walk over block hashes is not modelled.
- The proof-of-work algorithm is left out. The engine is a parameter.
- Proposal short-id derivation and transaction contents are left out. Transactions are opaque byte sequences, and
  `shortId` is a function fixed when the queue is constructed. In the source, `new()` takes no arguments.
- `shrink_to_fit` and `SHRINK_THRESHOLD` are left out. They change only allocated capacity, not content.
- Header building, molecule packing, the error-comparison macro and the display of epochs are left out.
- HeaderVerifier.VerifyNumber: requires `parent.number < 2^64 - 1`. u64 overflow of `parent.number + 1` is not
  modelled.
- HeaderVerifier.VerifyTimestamp: requires `now + ALLOWED_FUTURE_BLOCKTIME` to fit in a u64. Overflow of the future
  bound is not modelled.
- HeaderVerifier.VerifyEpoch: compares `index + 1` and `number + 1` as unbounded integers. Wrap-around at the u64
  limit is not modelled.
- `sync/src/synchronizer/in_ibd_process.rs` is not part of this model. It is peer bookkeeping, disconnects and
  logging.
