# ChainSequence: sequencing a source chain under optimistic concurrency

A Dafny model of the ChainSequence store of a Holochain cell
(`crates/cell/src/state/chain_sequence.rs`). The store maps a dense `u32` key to a
`ChainSequenceItem` (header address, index, batch number `tx_seq`,
`dht_transforms_complete`). A `ChainSequenceBuffer` is opened on a reader. It derives
the next index, its batch number and the chain head from the last persisted item. It
stages `add_header` puts in memory, and its head reads back those staged headers. On
`finalize` it re-derives the persisted head through the writer. If that head is not the
one the buffer was opened at, it fails with `SourceChainHeadMoved` and writes nothing.
Otherwise it writes the staged puts.

How the model represents the system:

- A persisted store, and the view that a reader or a writer has of it, is a
  `seq<Item>` whose position is the key.
- The buffer is a class. The const `reader` is the snapshot it was opened on. `scratch`
  holds the staged puts. `nextIndex`, `txSeq`, `currentHead` and `persistedHead` are
  the Rust fields. A ghost `Headers` lists the addresses added so far.
- `Valid()` ties these fields to the pure functions `OpenedOn` (what `from_db`
  derives) and `StageAll` (what a run of `add_header` calls stages).
- `Finalize` takes the writer's view of the store. It returns the outcome and the
  writer's store afterwards.
- `u32` is the subset type `Uint32`.
- Module `ChainSequence` (`chain_sequence.dfy`) is the source file.
- Module `ChainSequenceTests` (`chain_sequence_tests.dfy`) states the file's three
  tests on the model.

A chain built by committed buffers is `WellFormed`. This means it is `Dense` (item i has
index i) and `BatchesStep` holds (batches start at 0, and each item's batch equals its
predecessor's batch or is one more). The head check is sound when no header address
repeats in the chain. This holds for content-addressed headers that link to their
predecessor. `HeadUnmovedIffUnchanged` proves the check sound under that condition.
`RepeatedHeadPassesCheck` shows why the condition is needed.

A successful `finalize` with nothing staged writes nothing. The next buffer gets the
same `tx_seq`, so the batch number rises by one only per non-empty commit (see
`ReopenAfterCommit`).

## Model

| member | source | states |
|---|---|---|
| `ChainSequence.OpenedOn` | crates/cell/src/state/chain_sequence.rs:49-63 | On a store whose last item is L: next index L.index + 1, batch L.tx_seq + 1, head Some(L's address). On an empty store: next index 0, batch 0, head None. On a dense store the next index is the number of items. |
| `ChainSequence.OpenedOnBatchAboveAll` | crates/cell/src/state/chain_sequence.rs:50-53 | A buffer's batch number is strictly above the batch of every item already committed. |
| `ChainSequence.StageAll` | crates/cell/src/state/chain_sequence.rs:69-81 | Adding headers h0..hn-1 stages exactly n items. Item k has address hk and key/index next_index + k. All of them share the buffer's `tx_seq` and have `dht_transforms_complete` false. |
| `ChainSequence.ChainSequenceBuffer.New` | crates/cell/src/state/chain_sequence.rs:37-40 | A new buffer has nothing staged. Its next index, batch and head are those derived from the reader, and its current head equals its persisted head. |
| `ChainSequence.ChainSequenceBuffer.FromDb` | crates/cell/src/state/chain_sequence.rs:49-63 | Keeps the given staged puts. Derives next index, batch and head from the persisted items only, and sets the current head equal to the persisted head. |
| `ChainSequence.ChainSequenceBuffer.WithReader` | crates/cell/src/state/chain_sequence.rs:42-47 | A fresh buffer over another reader, with the same staged puts. Its persisted head is that reader's last item's address. |
| `ChainSequence.ChainSequenceBuffer.ChainHead` | crates/cell/src/state/chain_sequence.rs:65-67 | Read-your-own-writes: the head is the last added header if any was added, else the persisted head. It is None only when nothing is persisted or staged. |
| `ChainSequence.ChainSequenceBuffer.AddHeader` | crates/cell/src/state/chain_sequence.rs:69-81 | Stages exactly one item `{h, old next_index, tx_seq, false}`. Increments next_index by 1 and makes `ChainHead() == Some(h)`. Leaves `tx_seq`, the persisted head and the reader unchanged. |
| `ChainSequence.ChainSequenceBuffer.Finalize` | crates/cell/src/state/chain_sequence.rs:84-92 | Succeeds iff the writer's persisted head equals the buffer's persisted head. On success the store becomes the writer's items followed by the staged puts. Otherwise it fails with `SourceChainHeadMoved` and the store is exactly the writer's. |
| `ChainSequence.CommitKeepsWellFormed` | crates/cell/src/state/chain_sequence.rs:69-91 | Committing a buffer's staged items onto the well-formed chain it was opened on keeps the chain well-formed: indices stay dense with no gaps, and the batch goes up by at most one. |
| `ChainSequence.ReopenAfterCommit` | crates/cell/src/state/chain_sequence.rs:50-53 | After a non-empty commit, a reopened buffer has the last added header as head, next index equal to the old length plus the added count, and batch one higher whatever the count. After an empty commit the position is unchanged. |
| `ChainSequence.HeadUnmovedIffUnchanged` | crates/cell/src/state/chain_sequence.rs:86-88 | The writer's chain extends the snapshot, and its addresses are distinct. Then the heads are equal iff nothing was appended since the snapshot. |
| `ChainSequence.SecondCommitConflicts` | crates/cell/src/state/chain_sequence.rs:86-91 | Two buffers are opened on the same well-formed chain. After one commits a non-empty batch, the persisted head differs from the head the other was opened at, so the other's finalize fails and writes nothing. |
| `ChainSequence.RepeatedHeadPassesCheck` | crates/cell/src/state/chain_sequence.rs:86-90 | If an appended item repeats the head's address, the chain has moved yet passes the check. The buffer's staged put is keyed at 1, where the writer already holds a committed item with another address; the keyed put overwrites that item, so it is lost while the store stays dense. |
| `ChainSequenceTests.ScratchAwareness` | crates/cell/src/state/chain_sequence.rs:109-129 | The heads observed are None, then "0", "1", "2" as each header is staged. |
| `ChainSequenceTests.CommitThree` | crates/cell/src/state/chain_sequence.rs:138-146 | The head after the second add is that header. A session of three adds commits iff the writer's head equals the snapshot's. On commit it appends three items with consecutive indices from the snapshot's next index, all in the snapshot's next batch. |
| `ChainSequenceTests.Functionality` | crates/cell/src/state/chain_sequence.rs:131-174 | The first buffer's head is "1" after two adds. Two sessions give indices [0,1,2] with head "2", then indices [0..5], batches [0,0,0,1,1,1] and head "5". |
| `ChainSequenceTests.HeadMoved` | crates/cell/src/state/chain_sequence.rs:176-234 | Two buffers on the empty store: the second finalizes first and succeeds. The first then fails with `SourceChainHeadMoved`, and the store holds only the winner's three items, indices [0,1,2], batch 0. |

## Left out

- The LMDB/rkv engine, `DbManager`, reader and writer managers, and the internals of
  `KvIntBuffer` are not part of this model. The store is a sequence, a reader or writer is
  a snapshot of it, and the buffer's `db` is its `reader` plus `scratch`.
- `db.finalize(writer)` is modelled as appending the staged puts to the writer's store.
  A put whose key already exists in the writer's store overwrites that item instead.
  This is reachable only when the check passes on a chain whose head address repeats.
  `RepeatedHeadPassesCheck` states that key collision and its overwrite on an example, but
  `Finalize` itself does not represent it.
- Store and I/O errors (the `?` on `dbm.get`, `iter_raw_reverse`, `with_reader` and the
  store's own `finalize`) are not modelled. Only `SourceChainHeadMoved` is.
- `finalize` consumes the buffer in Rust. The model does not enforce single use, so a
  model buffer could be finalized twice.
- ChainSequence.ChainSequenceBuffer.AddHeader: requires `nextIndex < 2^32 - 1`. In Rust
  the `+ 1` on a `u32` would panic in a debug build or wrap in a release build, and the
  model does not represent either outcome.
- ChainSequence.OpenedOn: requires that the last item's index and `tx_seq` are below
  `2^32 - 1`, for the same reason. So does every member that opens a position on a
  store: `ChainSequenceBuffer.New` and `ChainSequenceBuffer.FromDb` on their reader,
  `ChainSequenceBuffer.WithReader` on the other reader, and `ChainSequenceBuffer.Finalize`
  on the writer's store, whose head it re-derives through `with_reader` and `from_db`.
- Later updates of `dht_transforms_complete` are made by code outside this file. Items
  are always staged with it false.
- The Rust lifetimes and the reader type parameters of `with_reader` and `from_db` are not
  modelled.
- The tokio `LocalSet` and oneshot channels of the race test are replaced by the
  sequential interleaving they force: A stages, B commits, A finalizes.
- The rest of the repository (transport listener, TLS proxy tests, conductor and cell
  wiring, `unimplemented!()` ribosome stubs, the commented-out HDK API, a WASM test
  crate, the conductor error enum) is not part of this model.
