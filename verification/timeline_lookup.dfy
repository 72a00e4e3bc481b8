/** The parser's lookup of the receive time of a document by its request offset. */
module TimelineLookup {
  import opened Options
  import opened RchBytes
  import opened CapturedJobs

  datatype TimelineEvent = TimelineEvent(startOffset: nat, endOffset: nat, receivedUnixNs: int)

  predicate Covers(e: TimelineEvent, offset: nat) {
    e.startOffset <= offset < e.endOffset
  }

  /** The request events among the timeline records, in file order. */
  function RequestEvents(chunks: seq<Chunk>): seq<TimelineEvent> {
    if chunks == [] then []
    else
      var rest, c := RequestEvents(chunks[..|chunks| - 1]), chunks[|chunks| - 1];
      if c.direction.ClientToRch? then rest + [TimelineEvent(c.offset, c.offset + c.byteCount, c.receivedUnixNs)] else rest
  }

  function Reach(events: seq<TimelineEvent>): nat {
    if events == [] then 0 else events[|events| - 1].endOffset
  }

  /** The events cover 0 to the end of the last one without gap or overlap. */
  predicate Tile(events: seq<TimelineEvent>) {
    events == [] ||
    var rest, last := events[..|events| - 1], events[|events| - 1];
    Tile(rest) && last.startOffset == Reach(rest) && last.startOffset < last.endOffset
  }

  /** The first covering event, otherwise the first one that starts no earlier than offset. */
  method EventForOffset(events: seq<TimelineEvent>, offset: nat) returns (r: Option<TimelineEvent>)
    ensures r.None? <==> forall i | 0 <= i < |events| :: !Covers(events[i], offset) && events[i].startOffset < offset
    ensures r.Some? && Covers(r.value, offset) ==>
              exists i :: 0 <= i < |events| && events[i] == r.value && forall k | 0 <= k < i :: !Covers(events[k], offset)
    ensures r.Some? && !Covers(r.value, offset) ==>
              && (forall i | 0 <= i < |events| :: !Covers(events[i], offset))
              && r.value.startOffset >= offset
              && exists i :: 0 <= i < |events| && events[i] == r.value
                             && forall k | 0 <= k < i :: events[k].startOffset < offset
  {
    for i := 0 to |events|
      invariant forall k | 0 <= k < i :: !Covers(events[k], offset)
    {
      if Covers(events[i], offset) {
        return Some(events[i]);
      }
    }
    for i := 0 to |events|
      invariant forall k | 0 <= k < i :: events[k].startOffset < offset
    {
      if events[i].startOffset >= offset {
        return Some(events[i]);
      }
    }
    return None;
  }

  /** The request events of a captured job tile the described request bytes, so sorting them changes nothing. */
  lemma {:induction false} RequestEventsTile(chunks: seq<Chunk>)
    requires Placed(chunks)
    ensures Tile(RequestEvents(chunks)) && Reach(RequestEvents(chunks)) == |Bytes(chunks, ClientToRch)|
  {
    if chunks != [] {
      var rest := RequestEvents(chunks[..|chunks| - 1]);
      RequestEventsTile(chunks[..|chunks| - 1]);
      assert RequestEvents(chunks) != rest ==> RequestEvents(chunks)[..|rest|] == rest;
    }
  }

  /** Tiling events cover every offset below their reach, each by exactly one event. */
  lemma {:induction false} TilesCoverOnce(events: seq<TimelineEvent>, offset: nat) returns (i: nat)
    requires Tile(events) && offset < Reach(events)
    ensures i < |events| && Covers(events[i], offset)
    ensures forall k | 0 <= k < |events| :: Covers(events[k], offset) ==> k == i
  {
    var n := |events| - 1;
    WithinReach(events[..n]);
    if events[n].startOffset <= offset {
      i := n;
      assert forall k | 0 <= k < n :: events[k] == events[..n][k];
    } else {
      i := TilesCoverOnce(events[..n], offset);
    }
  }

  lemma {:induction false} WithinReach(events: seq<TimelineEvent>)
    requires Tile(events)
    ensures forall k | 0 <= k < |events| :: events[k].endOffset <= Reach(events)
  {
    if events != [] {
      WithinReach(events[..|events| - 1]);
      assert forall k | 0 <= k < |events| - 1 :: events[k] == events[..|events| - 1][k];
    }
  }

  /** The byte at a request offset arrived in this chunk. */
  predicate Brought(c: Chunk, e: TimelineEvent, request: seq<byte>, offset: nat) {
    && c.direction.ClientToRch?
    && e == TimelineEvent(c.offset, c.offset + c.byteCount, c.receivedUnixNs)
    && c.byteCount == |c.digest|
    && c.offset <= offset < c.offset + c.byteCount
    && offset < |request|
    && c.digest[offset - c.offset] == request[offset]
  }

  lemma {:induction false} CoveringChunk(chunks: seq<Chunk>, request: seq<byte>, i: nat, offset: nat) returns (k: nat)
    requires Placed(chunks) && Bytes(chunks, ClientToRch) <= request
    requires i < |RequestEvents(chunks)| && Covers(RequestEvents(chunks)[i], offset)
    ensures k < |chunks| && Brought(chunks[k], RequestEvents(chunks)[i], request, offset)
  {
    var n := |chunks| - 1;
    var rest := Bytes(chunks[..n], ClientToRch);
    assert rest <= Bytes(chunks, ClientToRch);
    if i < |RequestEvents(chunks[..n])| {
      k := CoveringChunk(chunks[..n], request, i, offset);
    } else {
      k := n;
      var c := chunks[n];
      assert Bytes(chunks, ClientToRch) == rest + c.digest;
      assert (rest + c.digest)[offset] == c.digest[offset - c.offset];
    }
  }

  /** With a complete timeline the lookup of any stored request offset finds the one event that covers it, and
      that event is the receive event of the chunk that brought the byte. */
  method LookupFindsTheReceiveEvent(j: Job, offset: nat) returns (e: TimelineEvent, ghost k: nat)
    requires JobInv(j) && j.timelineComplete && offset < |j.kept.request|
    ensures k < |j.chunks| && Brought(j.chunks[k], e, j.kept.request, offset)
    ensures forall f | f in RequestEvents(j.chunks) && Covers(f, offset) :: f == e
  {
    RequestEventsTile(j.chunks);
    assert Bytes(j.chunks, ClientToRch) == j.kept.Of(ClientToRch);
    ghost var i := TilesCoverOnce(RequestEvents(j.chunks), offset);
    var r := EventForOffset(RequestEvents(j.chunks), offset);
    e := r.value;
    k := CoveringChunk(j.chunks, j.kept.request, i, offset);
  }
}
