/**
 * The scenarios of the ChainSequence tests, each stated on the model: a buffer
 * reads back its own staged headers, two sessions committed one after the
 * other, and two sessions racing from the same snapshot.
 */
module ChainSequenceTests {
  import opened ChainSequence

  function Indices(s: seq<Item>): seq<int> {
    seq(|s|, i requires 0 <= i < |s| => s[i].index)
  }

  function Batches(s: seq<Item>): seq<int> {
    seq(|s|, i requires 0 <= i < |s| => s[i].txSeq)
  }

  function Addresses(s: seq<Item>): seq<Address> {
    seq(|s|, i requires 0 <= i < |s| => s[i].headerAddress)
  }

  /** `chain_sequence_scratch_awareness`: the head follows each staged header */
  method ScratchAwareness() returns (heads: seq<Option<Address>>)
    ensures heads == [None, Some("0"), Some("1"), Some("2")]
  {
    var buf := new ChainSequenceBuffer.New([]);
    heads := [buf.ChainHead()];
    buf.AddHeader("0");
    heads := heads + [buf.ChainHead()];
    buf.AddHeader("1");
    heads := heads + [buf.ChainHead()];
    buf.AddHeader("2");
    heads := heads + [buf.ChainHead()];
  }

  /**
   * One reader session of the tests: open a buffer on `snapshot`, add three
   * headers and finalize against the writer's view `writer`; `headAfterTwo`
   * is the buffer's head once the first two headers are added.
   */
  method CommitThree(snapshot: seq<Item>, writer: seq<Item>, h0: Address, h1: Address, h2: Address)
    returns (headAfterTwo: Option<Address>, r: Outcome, committed: seq<Item>)
    requires NoOverflow(snapshot) && NoOverflow(writer)
    requires OpenedOn(snapshot).nextIndex + 3 < U32_LIMIT
    ensures headAfterTwo == Some(h1)
    ensures r.Ok? <==> PersistedHead(writer) == PersistedHead(snapshot)
    ensures r.Ok? ==> committed == writer + [
      Item(h0, OpenedOn(snapshot).nextIndex, OpenedOn(snapshot).txSeq, false),
      Item(h1, OpenedOn(snapshot).nextIndex + 1, OpenedOn(snapshot).txSeq, false),
      Item(h2, OpenedOn(snapshot).nextIndex + 2, OpenedOn(snapshot).txSeq, false)]
    ensures r.Err? ==> r == Err(SourceChainHeadMoved) && committed == writer
  {
    var buf := new ChainSequenceBuffer.New(snapshot);
    buf.AddHeader(h0);
    buf.AddHeader(h1);
    headAfterTwo := buf.ChainHead();
    buf.AddHeader(h2);
    r, committed := buf.Finalize(writer);
  }

  /**
   * `chain_sequence_functionality`: two sessions of three headers each,
   * committed one after the other; `first` and `second` are the store after
   * each commit, `headAfterTwo` the first buffer's head after two adds.
   */
  method Functionality() returns (headAfterTwo: Option<Address>, first: seq<Item>, second: seq<Item>)
    ensures headAfterTwo == Some("1")
    ensures Indices(first) == [0, 1, 2] && PersistedHead(first) == Some("2")
    ensures Indices(second) == [0, 1, 2, 3, 4, 5] && PersistedHead(second) == Some("5")
    ensures Batches(second) == [0, 0, 0, 1, 1, 1]
  {
    var r: Outcome;
    headAfterTwo, r, first := CommitThree([], [], "0", "1", "2");
    assert first == [Item("0", 0, 0, false), Item("1", 1, 0, false), Item("2", 2, 0, false)];
    assert OpenedOn(first) == ChainPosition(3, 1, Some("2"));
    var headB, r2, s2 := CommitThree(first, first, "3", "4", "5");
    r, second := r2, s2;
    assert second == first + [Item("3", 3, 1, false), Item("4", 4, 1, false), Item("5", 5, 1, false)];
  }

  /**
   * `chain_sequence_head_moved`: sessions A and B open on the same empty
   * store; B commits first and succeeds, then A fails with
   * `SourceChainHeadMoved` and the store holds B's items alone.
   */
  method HeadMoved() returns (resultA: Outcome, resultB: Outcome, store: seq<Item>)
    ensures resultB == Ok && resultA == Err(SourceChainHeadMoved)
    ensures Addresses(store) == ["3", "4", "5"]
    ensures Indices(store) == [0, 1, 2] && Batches(store) == [0, 0, 0]
  {
    var snapshot: seq<Item> := [];
    var a := new ChainSequenceBuffer.New(snapshot);
    a.AddHeader("0");
    a.AddHeader("1");
    a.AddHeader("2");

    // B opens on the same snapshot, stages three headers and commits first
    var headB, rB, sB := CommitThree(snapshot, snapshot, "3", "4", "5");
    resultB, store := rB, sB;

    var afterA: seq<Item>;
    resultA, afterA := a.Finalize(store);
    assert afterA == store;
  }
}
