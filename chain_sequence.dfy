/**
 * The ChainSequence store of a source chain: an integer-keyed store whose
 * item at key i records the i-th header of the chain, and a buffer that
 * stages new items in memory and commits them only if the chain head has not
 * moved since the buffer was opened (optimistic concurrency).
 *
 * A persisted store, and the view a reader or a writer has of it, is a
 * `seq<Item>` whose position is the key.
 */
module ChainSequence {

  const U32_LIMIT: int := 0x1_0000_0000
  const U32_MAX: int := 0xFFFF_FFFF

  /** Rust's `u32` */
  type Uint32 = x: int | 0 <= x < U32_LIMIT

  /** Content address of a header (opaque) */
  type Address = string

  datatype Option<T> = None | Some(value: T)

  /** A value in the ChainSequence store; `index` repeats the item's key */
  datatype Item = Item(
    headerAddress: Address,
    index: Uint32,
    txSeq: Uint32,
    dhtTransformsComplete: bool)

  datatype WorkspaceError = SourceChainHeadMoved

  datatype Outcome = Ok | Err(error: WorkspaceError)

  /** What a buffer derives from the store it is opened on */
  datatype ChainPosition = ChainPosition(nextIndex: Uint32, txSeq: Uint32, head: Option<Address>)

  // ---------------------------------------------------------------------
  // Shape of a persisted chain
  // ---------------------------------------------------------------------

  /** Every item's index field equals its key: keys 0 .. |s|-1, no gaps */
  predicate Dense(s: seq<Item>) {
    forall i :: 0 <= i < |s| ==> s[i].index == i
  }

  /** Batches start at 0 and each item's batch is its predecessor's or one more */
  predicate BatchesStep(s: seq<Item>) {
    (|s| > 0 ==> s[0].txSeq == 0) &&
    forall i :: 0 < i < |s| ==> s[i].txSeq == s[i - 1].txSeq || s[i].txSeq == s[i - 1].txSeq + 1
  }

  /** The shape every chain built by committing buffers has */
  predicate WellFormed(s: seq<Item>) {
    Dense(s) && BatchesStep(s)
  }

  /** No header address occurs twice in the chain */
  predicate DistinctAddresses(s: seq<Item>) {
    forall i, j :: 0 <= i < j < |s| ==> s[i].headerAddress != s[j].headerAddress
  }

  /** `iter_raw_reverse().next()`: the item with the greatest key, if any */
  function Latest(s: seq<Item>): (latest: Option<Item>)
    ensures latest.None? <==> |s| == 0
  {
    if |s| == 0 then None else Some(s[|s| - 1])
  }

  /** Deriving a position from the last item adds one to two `u32`s */
  predicate NoOverflow(s: seq<Item>) {
    |s| == 0 || (s[|s| - 1].index < U32_MAX && s[|s| - 1].txSeq < U32_MAX)
  }

  /** The head of the persisted chain: the address of the item with the greatest key */
  function PersistedHead(s: seq<Item>): Option<Address> {
    if |s| == 0 then None else Some(s[|s| - 1].headerAddress)
  }

  /** The `map(..).unwrap_or((0, 0, None))` of `from_db` */
  function DeriveFrom(latest: Option<Item>): ChainPosition
    requires latest.Some? ==> latest.value.index < U32_MAX && latest.value.txSeq < U32_MAX
  {
    match latest
    case None => ChainPosition(0, 0, None)
    case Some(item) => ChainPosition(item.index + 1, item.txSeq + 1, Some(item.headerAddress))
  }

  /**
   * The position a buffer opened on `s` starts from: one past the last item's
   * index and batch, with its address as head (0, 0 and no head when `s` is
   * empty). On a dense chain the next index is the number of items.
   */
  function OpenedOn(s: seq<Item>): (p: ChainPosition)
    requires NoOverflow(s)
    ensures p.head == PersistedHead(s)
    ensures |s| == 0 ==> p.nextIndex == 0 && p.txSeq == 0
    ensures |s| > 0 ==> p.nextIndex == s[|s| - 1].index + 1 && p.txSeq == s[|s| - 1].txSeq + 1
    ensures Dense(s) ==> p.nextIndex == |s|
  {
    DeriveFrom(Latest(s))
  }

  /** A buffer's batch number is above every batch already committed */
  lemma OpenedOnBatchAboveAll(s: seq<Item>)
    requires NoOverflow(s) && BatchesStep(s)
    ensures forall i :: 0 <= i < |s| ==> s[i].txSeq < OpenedOn(s).txSeq
  {
    BatchesMonotone(s);
  }

  /** Batch numbers never decrease along a chain */
  lemma {:induction false} BatchesMonotone(s: seq<Item>)
    ensures BatchesStep(s) ==> forall i :: 0 <= i < |s| ==> s[i].txSeq <= s[|s| - 1].txSeq
  {
    if |s| > 1 && BatchesStep(s) {
      var t := s[..|s| - 1];
      assert BatchesStep(t) by {
        forall i | 0 < i < |t| ensures t[i].txSeq == t[i - 1].txSeq || t[i].txSeq == t[i - 1].txSeq + 1 {
          assert t[i] == s[i] && t[i - 1] == s[i - 1];
        }
      }
      BatchesMonotone(t);
      forall i | 0 <= i < |s| ensures s[i].txSeq <= s[|s| - 1].txSeq {
        if i < |s| - 1 {
          assert s[i] == t[i] && t[|t| - 1] == s[|s| - 2];
        }
      }
    }
  }

  // ---------------------------------------------------------------------
  // Staging
  // ---------------------------------------------------------------------

  /**
   * The puts a buffer opened at `p` has staged after `add_header` was called
   * with each of `hs` in turn: one item per header, keyed from `p.nextIndex`
   * upwards, all in batch `p.txSeq`, none with DHT transforms complete.
   */
  function StageAll(p: ChainPosition, hs: seq<Address>): (staged: seq<Item>)
    requires p.nextIndex + |hs| < U32_LIMIT
    ensures |staged| == |hs|
    ensures forall k :: 0 <= k < |hs| ==>
      staged[k].headerAddress == hs[k] && staged[k].index == p.nextIndex + k &&
      staged[k].txSeq == p.txSeq && !staged[k].dhtTransformsComplete
    decreases |hs|
  {
    if |hs| == 0 then []
    else StageAll(p, hs[..|hs| - 1]) + [Item(hs[|hs| - 1], p.nextIndex + |hs| - 1, p.txSeq, false)]
  }

  /** The head a buffer reports: its last staged header, else the persisted head */
  function LatestHead(persisted: Option<Address>, hs: seq<Address>): Option<Address> {
    if |hs| == 0 then persisted else Some(hs[|hs| - 1])
  }

  // ---------------------------------------------------------------------
  // The buffer
  // ---------------------------------------------------------------------

  /**
   * `ChainSequenceBuffer`: `reader` is the persisted store seen through the
   * reader the buffer was opened with (the buffer never writes it) and
   * `scratch` holds the puts staged in memory. The ghost `Headers` lists the
   * addresses added so far.
   */
  class ChainSequenceBuffer {
    const reader: seq<Item>
    var scratch: seq<Item>
    var nextIndex: Uint32
    var txSeq: Uint32
    var currentHead: Option<Address>
    var persistedHead: Option<Address>
    ghost var Headers: seq<Address>

    ghost predicate Valid()
      reads this
    {
      NoOverflow(reader) &&
      var p := OpenedOn(reader);
      nextIndex == p.nextIndex + |Headers| &&
      txSeq == p.txSeq &&
      persistedHead == p.head &&
      scratch == StageAll(p, Headers) &&
      currentHead == LatestHead(persistedHead, Headers)
    }

    /** `new`: open a buffer on a reader, with nothing staged */
    constructor New(reader: seq<Item>)
      requires NoOverflow(reader)
      ensures Valid()
      ensures this.reader == reader && scratch == [] && Headers == []
      ensures ChainPosition(nextIndex, txSeq, currentHead) == OpenedOn(reader)
      ensures persistedHead == currentHead
    {
      var p := DeriveFrom(Latest(reader));
      this.reader := reader;
      scratch := [];
      nextIndex, txSeq, currentHead := p.nextIndex, p.txSeq, p.head;
      persistedHead := p.head;
      Headers := [];
    }

    /**
     * `from_db`: a buffer over `reader` that carries `scratch` as its staged
     * puts; its position is derived from the persisted items only.
     */
    constructor FromDb(reader: seq<Item>, scratch: seq<Item>)
      requires NoOverflow(reader)
      ensures this.reader == reader && this.scratch == scratch
      ensures ChainPosition(nextIndex, txSeq, currentHead) == OpenedOn(reader)
      ensures persistedHead == currentHead
    {
      var p := DeriveFrom(Latest(reader));
      this.reader := reader;
      this.scratch := scratch;
      nextIndex, txSeq, currentHead := p.nextIndex, p.txSeq, p.head;
      persistedHead := p.head;
      Headers := [];
    }

    /** `with_reader`: the same staged puts, seen through another reader */
    method WithReader(other: seq<Item>) returns (b: ChainSequenceBuffer)
      requires NoOverflow(other)
      ensures fresh(b)
      ensures b.reader == other && b.scratch == scratch
      ensures ChainPosition(b.nextIndex, b.txSeq, b.currentHead) == OpenedOn(other)
      ensures b.persistedHead == PersistedHead(other)
    {
      b := new ChainSequenceBuffer.FromDb(other, scratch);
    }

    /** `chain_head`: reads back the buffer's own staged writes */
    function ChainHead(): (h: Option<Address>)
      reads this
      requires Valid()
      ensures |Headers| > 0 ==> h == Some(Headers[|Headers| - 1])
      ensures |Headers| == 0 ==> h == PersistedHead(reader)
      ensures h.None? <==> |Headers| == 0 && |reader| == 0
    {
      currentHead
    }

    /** `add_header`: stage one item at the next index, in this buffer's batch */
    method AddHeader(headerAddress: Address)
      requires Valid()
      requires nextIndex < U32_MAX
      modifies this
      ensures Valid()
      ensures Headers == old(Headers) + [headerAddress]
      ensures scratch == old(scratch) + [Item(headerAddress, old(nextIndex), old(txSeq), false)]
      ensures nextIndex == old(nextIndex) + 1
      ensures ChainHead() == Some(headerAddress)
      ensures txSeq == old(txSeq) && persistedHead == old(persistedHead)
    {
      ghost var p := OpenedOn(reader);
      ghost var hs := Headers + [headerAddress];
      assert hs[..|hs| - 1] == Headers;
      scratch := scratch + [Item(headerAddress, nextIndex, txSeq, false)];
      nextIndex := nextIndex + 1;
      currentHead := Some(headerAddress);
      Headers := hs;
    }

    /**
     * `finalize`: re-derive the persisted head from the writer's view; commit
     * the staged puts onto it when that head is the one the buffer was opened
     * at, else fail and write nothing. `committed` is the writer's store after.
     */
    method Finalize(writer: seq<Item>) returns (r: Outcome, committed: seq<Item>)
      requires NoOverflow(writer)
      ensures r.Ok? <==> PersistedHead(writer) == persistedHead
      ensures r.Err? ==> r.error == SourceChainHeadMoved && committed == writer
      ensures r.Ok? ==> committed == writer + scratch
    {
      var current := WithReader(writer);
      if current.persistedHead != persistedHead {
        r, committed := Err(SourceChainHeadMoved), writer;
      } else {
        r, committed := Ok, writer + scratch;
      }
    }
  }

  // ---------------------------------------------------------------------
  // Properties of commits
  // ---------------------------------------------------------------------

  /** Whether a buffer opened on `s` can stage all of `hs` without overflow */
  predicate Fits(s: seq<Item>, hs: seq<Address>) {
    NoOverflow(s) && OpenedOn(s).nextIndex + |hs| < U32_LIMIT
  }

  /**
   * Committing a buffer opened on a well-formed chain onto that same chain
   * keeps it well-formed: keys stay dense and the batch grows by at most one.
   */
  lemma CommitKeepsWellFormed(s: seq<Item>, hs: seq<Address>)
    requires WellFormed(s) && Fits(s, hs)
    ensures WellFormed(s + StageAll(OpenedOn(s), hs))
  {
    var p := OpenedOn(s);
    var staged := StageAll(p, hs);
    var c := s + staged;
    forall i | 0 <= i < |c| ensures c[i].index == i {
      if i >= |s| {
        assert c[i] == staged[i - |s|];
      }
    }
    forall i | 0 < i < |c| ensures c[i].txSeq == c[i - 1].txSeq || c[i].txSeq == c[i - 1].txSeq + 1 {
      if i > |s| {
        assert c[i] == staged[i - |s|] && c[i - 1] == staged[i - 1 - |s|];
      } else if i == |s| {
        assert c[i] == staged[0] && c[i - 1] == s[|s| - 1];
      }
    }
    if |s| == 0 && |hs| > 0 {
      assert c[0] == staged[0];
    }
  }

  /**
   * A buffer reopened after a non-empty commit sees the last added header as
   * head, the next index past the new items, and a batch one higher, however
   * many items were committed; an empty commit leaves the position as it was.
   */
  lemma ReopenAfterCommit(s: seq<Item>, hs: seq<Address>)
    requires WellFormed(s) && Fits(s, hs)
    ensures NoOverflow(s + StageAll(OpenedOn(s), hs))
    ensures |hs| > 0 ==>
      OpenedOn(s + StageAll(OpenedOn(s), hs)) == ChainPosition(|s| + |hs|, OpenedOn(s).txSeq + 1, Some(hs[|hs| - 1]))
    ensures |hs| == 0 ==> OpenedOn(s + StageAll(OpenedOn(s), hs)) == OpenedOn(s)
  {
    var p := OpenedOn(s);
    var staged := StageAll(p, hs);
    var c := s + staged;
    if |hs| > 0 {
      var last := staged[|hs| - 1];
      assert c[|c| - 1] == last;
      assert last.index == p.nextIndex + |hs| - 1 && last.txSeq == p.txSeq;
      assert p.txSeq <= p.nextIndex by {
        if |s| > 0 {
          BatchesAtMostIndex(s);
          assert s[|s| - 1].txSeq <= s[|s| - 1].index;
        }
      }
      assert NoOverflow(c);
      assert Latest(c) == Some(last);
    } else {
      assert c == s;
    }
  }

  /** In a well-formed chain no batch number exceeds its item's index */
  lemma {:induction false} BatchesAtMostIndex(s: seq<Item>)
    requires WellFormed(s)
    ensures forall i :: 0 <= i < |s| ==> s[i].txSeq <= s[i].index
  {
    if |s| > 1 {
      var t := s[..|s| - 1];
      assert WellFormed(t) by {
        forall i | 0 < i < |t| ensures t[i].txSeq == t[i - 1].txSeq || t[i].txSeq == t[i - 1].txSeq + 1 {
          assert t[i] == s[i] && t[i - 1] == s[i - 1];
        }
      }
      BatchesAtMostIndex(t);
      forall i | 0 <= i < |s| ensures s[i].txSeq <= s[i].index {
        if i < |s| - 1 {
          assert s[i] == t[i];
        } else {
          assert s[i - 1] == t[i - 1];
        }
      }
    }
  }

  /**
   * The head check detects any commit in between: when the writer's chain
   * extends the buffer's snapshot and no address repeats in it, the heads are
   * equal exactly when nothing was appended since the snapshot.
   */
  lemma HeadUnmovedIffUnchanged(snapshot: seq<Item>, writer: seq<Item>)
    requires snapshot <= writer
    requires DistinctAddresses(writer)
    ensures PersistedHead(writer) == PersistedHead(snapshot) <==> writer == snapshot
  {
    if |writer| > |snapshot| && |snapshot| > 0 {
      assert writer[|snapshot| - 1] == snapshot[|snapshot| - 1];
    }
    if |writer| == |snapshot| {
      assert writer == snapshot;
    }
  }

  /**
   * Two buffers opened on the same snapshot `s`: once B commits a non-empty
   * batch onto `s`, the persisted head is no longer the one A was opened at,
   * so A's head check fails and A writes nothing.
   */
  lemma SecondCommitConflicts(s: seq<Item>, hsB: seq<Address>)
    requires WellFormed(s) && Fits(s, hsB)
    requires |hsB| > 0
    requires DistinctAddresses(s + StageAll(OpenedOn(s), hsB))
    ensures PersistedHead(s + StageAll(OpenedOn(s), hsB)) != OpenedOn(s).head
  {
    var c := s + StageAll(OpenedOn(s), hsB);
    HeadUnmovedIffUnchanged(s, c);
    assert |c| > |s|;
  }

  /**
   * Why the check needs distinct addresses: a chain that grew by an item
   * repeating the head's address passes the check, and the buffer's first
   * staged put is keyed at 1, where the writer's store already holds a
   * committed item with another address; the keyed put of `finalize`
   * overwrites that item, so it is lost while the store stays dense.
   */
  lemma RepeatedHeadPassesCheck()
    ensures var s := [Item("a", 0, 0, false)];
            var w := s + [Item("a", 1, 1, false)];
            var put := StageAll(OpenedOn(s), ["b"])[0];
            PersistedHead(w) == OpenedOn(s).head && w != s &&
            put.index == 1 < |w| && w[1].headerAddress != put.headerAddress &&
            Dense(w[1 := put]) && w[1] !in w[1 := put]
  {
    var s := [Item("a", 0, 0, false)];
    var w := s + [Item("a", 1, 1, false)];
    var put := StageAll(OpenedOn(s), ["b"])[0];
    assert put == Item("b", 1, 1, false);
    var after := w[1 := put];
    assert after == [Item("a", 0, 0, false), Item("b", 1, 1, false)];
  }
}
