/** The in-memory record of one transport connection: bounded copies of both directions and of the receive events. */
module CapturedJobs {
  import opened Options
  import opened RchBytes

  datatype Direction = ClientToRch | RchToClient

  /** What is known about the local writer drain of a received chunk. */
  datatype Drain = Drain(completed: bool, unixNs: int, error: Option<string>)

  /** One receive event. The digest stands for an ideal hash and is the hashed content itself. */
  datatype Chunk = Chunk(
    sequence: nat,
    direction: Direction,
    offset: nat,
    sessionOffset: nat,
    byteCount: nat,
    digest: seq<byte>,
    receivedUnixNs: int,
    drain: Option<Drain>)

  /** One byte sequence per direction. */
  datatype Copies = Copies(request: seq<byte>, response: seq<byte>) {
    function Of(d: Direction): seq<byte> {
      if d.ClientToRch? then request else response
    }

    function Extend(d: Direction, more: seq<byte>): Copies {
      if d.ClientToRch? then Copies(request + more, response) else Copies(request, response + more)
    }

    function Size(): nat {
      |request| + |response|
    }
  }

  /** seen: every byte observed; kept: the bytes counted as stored. */
  datatype Job = Job(
    maxPayload: nat,
    maxEvents: nat,
    seen: Copies,
    kept: Copies,
    chunks: seq<Chunk>,
    captureComplete: bool,
    timelineComplete: bool)

  function NewJob(maxPayload: nat, maxEvents: nat): Job {
    Job(maxPayload, maxEvents, Copies([], []), Copies([], []), [], true, true)
  }

  /** The part of data that still fits under the payload limit. */
  function Stored(j: Job, data: seq<byte>): (r: seq<byte>)
    ensures r <= data
  {
    var remaining := j.maxPayload - j.kept.Size();
    if |data| <= remaining then data else if remaining <= 0 then [] else data[..remaining]
  }

  function NewChunk(j: Job, d: Direction, data: seq<byte>, sequence: nat, sessionOffset: nat, receivedUnixNs: int): Chunk {
    Chunk(sequence, d, |j.kept.Of(d)|, sessionOffset, |Stored(j, data)|, Stored(j, data), receivedUnixNs, None)
  }

  /** Records a received chunk. */
  function AppendTo(j: Job, d: Direction, data: seq<byte>, sequence: nat, sessionOffset: nat, receivedUnixNs: int): Job {
    if data == [] then j
    else
      var stored := Stored(j, data);
      var retained := stored != [] && |j.chunks| < j.maxEvents;
      j.(seen := j.seen.Extend(d, data),
         kept := j.kept.Extend(d, stored),
         chunks := if retained then j.chunks + [NewChunk(j, d, data, sequence, sessionOffset, receivedUnixNs)] else j.chunks,
         timelineComplete := j.timelineComplete && (retained || stored == []),
         captureComplete := j.captureComplete && |stored| == |data|)
  }

  /** The index AppendTo gives the new chunk, if it retains one. */
  function AppendIndex(j: Job, data: seq<byte>): Option<nat> {
    if Stored(j, data) != [] && |j.chunks| < j.maxEvents then Some(|j.chunks|) else None
  }

  function MarkChunk(j: Job, index: Option<nat>, drain: Drain): Job {
    if index.Some? && index.value < |j.chunks| then
      j.(chunks := j.chunks[index.value := j.chunks[index.value].(drain := Some(drain))])
    else j
  }

  // ---------------------------------------------------------------- invariant

  /** The bytes of direction d that the events describe, in event order. */
  function Bytes(chunks: seq<Chunk>, d: Direction): seq<byte> {
    if chunks == [] then []
    else
      var last := chunks[|chunks| - 1];
      Bytes(chunks[..|chunks| - 1], d) + if last.direction == d then last.digest else []
  }

  /** Every event starts where the earlier events of its direction end, is not empty and has its stated length. */
  predicate Placed(chunks: seq<Chunk>) {
    chunks == [] ||
    var rest, last := chunks[..|chunks| - 1], chunks[|chunks| - 1];
    Placed(rest) && last.offset == |Bytes(rest, last.direction)| && last.byteCount == |last.digest| && last.digest != []
  }

  predicate CopiesOk(j: Job) {
    && j.kept.Size() <= j.maxPayload
    && (forall d: Direction :: j.kept.Of(d) <= j.seen.Of(d))
    && (j.captureComplete || j.kept.Size() < j.maxPayload ==> j.kept == j.seen)
  }

  predicate TimelineOk(j: Job) {
    && |j.chunks| <= j.maxEvents
    && Placed(j.chunks)
    && (forall d: Direction :: Bytes(j.chunks, d) <= j.kept.Of(d))
    && (j.timelineComplete || |j.chunks| < j.maxEvents ==> forall d: Direction :: Bytes(j.chunks, d) == j.kept.Of(d))
  }

  predicate JobInv(j: Job) {
    CopiesOk(j) && TimelineOk(j)
  }

  lemma PlacedAppend(chunks: seq<Chunk>, c: Chunk)
    requires Placed(chunks)
    requires c.offset == |Bytes(chunks, c.direction)| && c.byteCount == |c.digest| && c.digest != []
    ensures Placed(chunks + [c])
    ensures forall d: Direction :: Bytes(chunks + [c], d) == Bytes(chunks, d) + if c.direction == d then c.digest else []
  {
    assert (chunks + [c])[..|chunks|] == chunks;
  }

  /** Stored bytes are a prefix of the observed ones, per direction, and jointly within the payload limit; they
      are all of them until the limit is reached. */
  lemma AppendCopies(j: Job, d: Direction, data: seq<byte>, sequence: nat, sessionOffset: nat, receivedUnixNs: int)
    requires CopiesOk(j)
    ensures CopiesOk(AppendTo(j, d, data, sequence, sessionOffset, receivedUnixNs))
  {
    hide Placed, Bytes;
    var r := AppendTo(j, d, data, sequence, sessionOffset, receivedUnixNs);
    if data != [] {
      if j.kept.Size() == j.maxPayload {
        assert Stored(j, data) == [];
        assert r.kept == j.kept;
        assert j.seen.Of(d) <= r.seen.Of(d);
      } else {
        assert j.kept == j.seen;
      }
    }
  }

  /** Retained events tile a prefix of each direction's stored bytes: all of them unless the event limit was hit. */
  lemma AppendTimeline(j: Job, d: Direction, data: seq<byte>, sequence: nat, sessionOffset: nat, receivedUnixNs: int)
    requires CopiesOk(j) && TimelineOk(j)
    ensures TimelineOk(AppendTo(j, d, data, sequence, sessionOffset, receivedUnixNs))
  {
    hide Placed, Bytes;
    var r := AppendTo(j, d, data, sequence, sessionOffset, receivedUnixNs);
    if data != [] {
      var stored := Stored(j, data);
      if stored != [] && |j.chunks| < j.maxEvents {
        PlacedAppend(j.chunks, NewChunk(j, d, data, sequence, sessionOffset, receivedUnixNs));
      } else {
        assert r.chunks == j.chunks;
        assert forall e: Direction :: j.kept.Of(e) <= r.kept.Of(e);
        assert stored == [] ==> r.kept == j.kept;
      }
    }
  }

  lemma AppendCounts(j: Job, d: Direction, data: seq<byte>, sequence: nat, sessionOffset: nat, receivedUnixNs: int)
    requires data != []
    ensures var r := AppendTo(j, d, data, sequence, sessionOffset, receivedUnixNs);
            && r.seen == j.seen.Extend(d, data) && r.kept == j.kept.Extend(d, Stored(j, data))
            && r.maxPayload == j.maxPayload && r.maxEvents == j.maxEvents
  {
  }

  /** What every received chunk keeps. */
  lemma AppendKeepsInv(j: Job, d: Direction, data: seq<byte>, sequence: nat, sessionOffset: nat, receivedUnixNs: int)
    requires JobInv(j)
    ensures JobInv(AppendTo(j, d, data, sequence, sessionOffset, receivedUnixNs))
  {
    hide CopiesOk, TimelineOk, AppendTo;
    AppendCopies(j, d, data, sequence, sessionOffset, receivedUnixNs);
    AppendTimeline(j, d, data, sequence, sessionOffset, receivedUnixNs);
  }

  lemma {:induction false} DrainsDoNotMove(a: seq<Chunk>, b: seq<Chunk>)
    requires |a| == |b|
    requires forall i | 0 <= i < |a| :: a[i].(drain := None) == b[i].(drain := None)
    ensures Placed(a) == Placed(b)
    ensures forall d: Direction :: Bytes(a, d) == Bytes(b, d)
  {
    if a != [] {
      var n := |a| - 1;
      assert a[n].(drain := None) == b[n].(drain := None);
      assert a[n].direction == b[n].direction && a[n].offset == b[n].offset;
      assert a[n].byteCount == b[n].byteCount && a[n].digest == b[n].digest;
      DrainsDoNotMove(a[..n], b[..n]);
    }
  }

  lemma MarkKeepsInv(j: Job, index: Option<nat>, drain: Drain)
    requires JobInv(j)
    ensures JobInv(MarkChunk(j, index, drain))
  {
    hide Placed, Bytes;
    DrainsDoNotMove(j.chunks, MarkChunk(j, index, drain).chunks);
  }

  // ---------------------------------------------------------------- the object

  datatype TransportStatus = DeliveryUnconfirmed | WriteFailedOrCancelled | AllDrainsCompleted | Stated(text: string)

  datatype CaptureToken = CaptureToken(chunkIndex: Option<nat>, direction: Direction, byteCount: nat, sequence: nat)

  /** How many bytes the local writers have drained towards the printer and towards the client. */
  datatype DrainCounts = DrainCounts(toPrinter: nat, toClient: nat) {
    function Add(d: Direction, count: nat): DrainCounts {
      if d.ClientToRch? then DrainCounts(toPrinter + count, toClient) else DrainCounts(toPrinter, toClient + count)
    }
  }

  class CapturedJob {
    const maxPayloadBytes: nat
    const maxCaptureEvents: nat
    var request: seq<byte>
    var response: seq<byte>
    var chunks: seq<Chunk>
    var bytesCapturedFromClient: nat
    var bytesCapturedFromPrinter: nat
    var bytesStoredFromClient: nat
    var bytesStoredFromPrinter: nat
    var bytesLocalWriteDrainToPrinter: nat
    var bytesLocalWriteDrainToClient: nat
    var captureComplete: bool
    var timelineComplete: bool
    var transportStatus: TransportStatus
    ghost var seen: Copies
    ghost var kept: Copies

    ghost function View(): Job
      reads this
    {
      Job(maxPayloadBytes, maxCaptureEvents, seen, kept, chunks, captureComplete, timelineComplete)
    }

    ghost predicate Valid()
      reads this
    {
      JobInv(View()) && Counted()
    }

    function DrainedBytes(): DrainCounts
      reads this
    {
      DrainCounts(bytesLocalWriteDrainToPrinter, bytesLocalWriteDrainToClient)
    }

    /** The payload buffers hold everything stored. */
    ghost predicate Retained()
      reads this
    {
      request == kept.request && response == kept.response
    }

    constructor (maxPayloadBytes: nat, maxCaptureEvents: nat)
      ensures Valid() && Retained() && View() == NewJob(maxPayloadBytes, maxCaptureEvents) && DrainedBytes() == DrainCounts(0, 0)
    {
      this.maxPayloadBytes, this.maxCaptureEvents := maxPayloadBytes, maxCaptureEvents;
      request, response, chunks := [], [], [];
      bytesCapturedFromClient, bytesCapturedFromPrinter := 0, 0;
      bytesStoredFromClient, bytesStoredFromPrinter := 0, 0;
      bytesLocalWriteDrainToPrinter, bytesLocalWriteDrainToClient := 0, 0;
      captureComplete, timelineComplete, transportStatus := true, true, DeliveryUnconfirmed;
      seen, kept := Copies([], []), Copies([], []);
    }

    /** The counters and buffers agree with the ghost copies. */
    ghost predicate Counted()
      reads this
    {
      && bytesCapturedFromClient == |seen.request|
      && bytesCapturedFromPrinter == |seen.response|
      && bytesStoredFromClient == |kept.request|
      && bytesStoredFromPrinter == |kept.response|
    }

    method CountCaptured(d: Direction, data: seq<byte>)
      requires Counted()
      modifies this`bytesCapturedFromClient, this`bytesCapturedFromPrinter, this`seen
      ensures Counted() && seen == old(seen).Extend(d, data)
    {
      seen := seen.Extend(d, data);
      if d.ClientToRch? {
        bytesCapturedFromClient := bytesCapturedFromClient + |data|;
      } else {
        bytesCapturedFromPrinter := bytesCapturedFromPrinter + |data|;
      }
    }

    method CountStored(d: Direction, stored: seq<byte>, retainPayload: bool)
      requires Counted()
      modifies this`bytesStoredFromClient, this`bytesStoredFromPrinter, this`request, this`response, this`kept
      ensures Counted() && kept == old(kept).Extend(d, stored)
      ensures retainPayload && old(Retained()) ==> Retained()
      ensures !retainPayload ==> request == old(request) && response == old(response)
    {
      kept := kept.Extend(d, stored);
      if d.ClientToRch? {
        bytesStoredFromClient := bytesStoredFromClient + |stored|;
      } else {
        bytesStoredFromPrinter := bytesStoredFromPrinter + |stored|;
      }
      if retainPayload {
        if d.ClientToRch? {
          request := request + stored;
        } else {
          response := response + stored;
        }
      }
    }

    method Append(d: Direction, data: seq<byte>, sequence: nat, sessionOffset: nat, receivedUnixNs: int, retainPayload: bool)
      returns (chunkIndex: Option<nat>)
      requires Valid()
      modifies this`request, this`response, this`chunks, this`bytesCapturedFromClient, this`bytesCapturedFromPrinter,
               this`bytesStoredFromClient, this`bytesStoredFromPrinter, this`captureComplete, this`timelineComplete,
               this`seen, this`kept
      ensures Valid()
      ensures View() == old(AppendTo(View(), d, data, sequence, sessionOffset, receivedUnixNs))
      ensures chunkIndex == old(AppendIndex(View(), data))
      ensures retainPayload && old(Retained()) ==> Retained()
      ensures !retainPayload ==> request == old(request) && response == old(response)
    {
      hide JobInv, CopiesOk, TimelineOk;
      ghost var appended := AppendTo(View(), d, data, sequence, sessionOffset, receivedUnixNs);
      AppendKeepsInv(View(), d, data, sequence, sessionOffset, receivedUnixNs);
      chunkIndex := None;
      if data == [] {
        return;
      }
      CountCaptured(d, data);
      var offset := if d.ClientToRch? then bytesStoredFromClient else bytesStoredFromPrinter;
      var remaining := maxPayloadBytes - (bytesStoredFromClient + bytesStoredFromPrinter);
      var stored := if |data| <= remaining then data else if remaining <= 0 then [] else data[..remaining];
      assert stored == old(Stored(View(), data)) && offset == old(|View().kept.Of(d)|);
      if stored != [] {
        CountStored(d, stored, retainPayload);
        if |chunks| < maxCaptureEvents {
          chunks := chunks + [Chunk(sequence, d, offset, sessionOffset, |stored|, stored, receivedUnixNs, None)];
          chunkIndex := Some(|chunks| - 1);
        } else {
          timelineComplete := false;
        }
      }
      if |stored| != |data| {
        captureComplete := false;
      }
      assert old(kept).Extend(d, []) == old(kept);
      assert View() == appended;
    }

    method MarkLocalWriteDrain(token: CaptureToken, drain: Drain)
      requires Valid()
      modifies this`chunks, this`bytesLocalWriteDrainToPrinter, this`bytesLocalWriteDrainToClient, this`transportStatus
      ensures Valid()
      ensures View() == old(MarkChunk(View(), token.chunkIndex, drain))
      ensures !drain.completed ==> transportStatus == WriteFailedOrCancelled
      ensures drain.completed ==> transportStatus == old(transportStatus)
      ensures DrainedBytes() == old(DrainedBytes()).Add(token.direction, if drain.completed then token.byteCount else 0)
    {
      hide JobInv, CopiesOk, TimelineOk;
      ghost var marked := MarkChunk(View(), token.chunkIndex, drain);
      MarkKeepsInv(View(), token.chunkIndex, drain);
      if token.chunkIndex.Some? && token.chunkIndex.value < |chunks| {
        var i := token.chunkIndex.value;
        chunks := chunks[i := chunks[i].(drain := Some(drain))];
      }
      if drain.completed {
        if token.direction.ClientToRch? {
          bytesLocalWriteDrainToPrinter := bytesLocalWriteDrainToPrinter + token.byteCount;
        } else {
          bytesLocalWriteDrainToClient := bytesLocalWriteDrainToClient + token.byteCount;
        }
      } else {
        transportStatus := WriteFailedOrCancelled;
      }
      assert View() == marked;
    }

    method Finish(stated: string)
      requires Valid()
      modifies this`transportStatus
      ensures Valid() && View() == old(View()) && DrainedBytes() == old(DrainedBytes())
      ensures transportStatus ==
              if stated != "" then Stated(stated)
              else if old(transportStatus) == WriteFailedOrCancelled then WriteFailedOrCancelled
              else if DrainedBytes() == DrainCounts(|seen.request|, |seen.response|) then AllDrainsCompleted
              else DeliveryUnconfirmed
    {
      if stated != "" {
        transportStatus := Stated(stated);
      } else if transportStatus != WriteFailedOrCancelled {
        var all := bytesCapturedFromClient == bytesLocalWriteDrainToPrinter
                   && bytesCapturedFromPrinter == bytesLocalWriteDrainToClient;
        transportStatus := if all then AllDrainsCompleted else DeliveryUnconfirmed;
      }
    }
  }
}
