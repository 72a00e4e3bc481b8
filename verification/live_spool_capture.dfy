/** The single-consumer object that writes a live capture. Its methods are proved against LiveSpool. A hasher is
    an ideal hash and is represented by the content fed to it. */
module LiveSpoolCaptures {
  import opened Options
  import opened RchBytes
  import opened CapturedJobs
  import opened LiveSpool

  function Max(a: nat, b: nat): nat {
    if b > a then b else a
  }

  class LiveSpoolCapture {
    var closed: bool
    var requestFile: seq<byte>
    var responseFile: seq<byte>
    var timelineFile: seq<Chunk>
    var requestHasher: seq<byte>
    var responseHasher: seq<byte>
    var timelineHasher: seq<Chunk>
    var requestSize: nat
    var responseSize: nat
    var timelineEvents: nat
    var pending: map<nat, Chunk>
    var skipped: set<nat>
    var nextTimelineSequence: nat
    var maximumSequence: nat

    ghost function View(): Live
      reads this
    {
      Live(Copies(requestFile, responseFile), timelineFile, pending, skipped, nextTimelineSequence, maximumSequence, closed)
    }

    /** Hashes, sizes and the event count describe the files. */
    ghost predicate Measured()
      reads this
    {
      && requestHasher == requestFile && responseHasher == responseFile && timelineHasher == timelineFile
      && requestSize == |requestFile| && responseSize == |responseFile| && timelineEvents == |timelineFile|
    }

    ghost predicate Valid()
      reads this
    {
      LiveInv(View()) && Measured()
    }

    constructor ()
      ensures Valid() && View() == NEW_LIVE
    {
      closed := false;
      requestFile, responseFile, timelineFile := [], [], [];
      requestHasher, responseHasher, timelineHasher := [], [], [];
      requestSize, responseSize, timelineEvents := 0, 0, 0;
      pending, skipped := map[], {};
      nextTimelineSequence, maximumSequence := 1, 0;
    }

    method Append(sequence: nat, d: Direction, data: seq<byte>, timelineChunk: Option<Chunk>) returns (error: Option<LiveError>)
      requires Valid()
      modifies this
      ensures Measured() && (error == None ==> Valid())
      ensures error == old(LiveAppend(View(), sequence, d, data, timelineChunk).error)
      ensures View() == old(LiveAppend(View(), sequence, d, data, timelineChunk).live)
    {
      hide LiveInv, Flush;
      if closed {
        return Some(Closed);
      }
      if sequence != maximumSequence + 1 {
        return Some(NotContiguous);
      }
      if timelineChunk.None? || (timelineChunk.value.sequence == sequence && timelineChunk.value.byteCount == |data|) {
        AppendKeeps(View(), sequence, d, data, timelineChunk);
      }
      WriteRaw(d, data);
      maximumSequence := Max(maximumSequence, sequence);
      if timelineChunk.None? {
        skipped := skipped + {sequence};
      } else {
        if timelineChunk.value.sequence != sequence {
          return Some(WrongTimelineSequence);
        }
        if timelineChunk.value.byteCount != |data| {
          return Some(WrongByteCount);
        }
        pending := pending[sequence := timelineChunk.value];
      }
      FlushReadyTimeline(false);
      return None;
    }

    method WriteRaw(d: Direction, data: seq<byte>)
      requires Measured()
      modifies this`requestFile, this`responseFile, this`requestHasher, this`responseHasher, this`requestSize, this`responseSize
      ensures Measured() && View() == old(View()).(raw := old(View()).raw.Extend(d, data))
    {
      if data != [] {
        if d.ClientToRch? {
          requestFile, requestHasher, requestSize := requestFile + data, requestHasher + data, requestSize + |data|;
        } else {
          responseFile, responseHasher, responseSize := responseFile + data, responseHasher + data, responseSize + |data|;
        }
      }
    }

    method MarkLocalWriteDrain(sequence: nat, drain: Drain) returns (error: Option<LiveError>)
      requires Valid()
      modifies this
      ensures Valid()
      ensures error == if old(closed) then Some(Closed) else None
      ensures View() == old(LiveDrain(View(), sequence, drain))
    {
      hide LiveInv, Flush;
      if closed {
        return Some(Closed);
      }
      DrainKeeps(View(), sequence, drain);
      error := None;
      if sequence in pending {
        pending := pending[sequence := pending[sequence].(drain := Some(drain))];
        FlushReadyTimeline(false);
      }
    }

    method WriteTimelineChunk(chunk: Chunk)
      requires Measured()
      modifies this`timelineFile, this`timelineHasher, this`timelineEvents
      ensures Measured() && View() == old(View()).(timeline := old(View()).timeline + [chunk])
    {
      timelineFile, timelineHasher, timelineEvents := timelineFile + [chunk], timelineHasher + [chunk], timelineEvents + 1;
    }

    method FlushReadyTimeline(force: bool)
      requires Measured()
      modifies this
      ensures Measured() && View() == old(Flush(View(), force))
    {
      while nextTimelineSequence <= maximumSequence
        invariant Measured() && Flush(View(), force) == old(Flush(View(), force))
        decreases maximumSequence - nextTimelineSequence
      {
        var sequence := nextTimelineSequence;
        if sequence in skipped {
          skipped := skipped - {sequence};
          nextTimelineSequence := nextTimelineSequence + 1;
          continue;
        }
        if sequence !in pending {
          break;
        }
        var chunk := pending[sequence];
        if !force && chunk.drain.None? {
          break;
        }
        pending := pending - {sequence};
        WriteTimelineChunk(chunk);
        nextTimelineSequence := nextTimelineSequence + 1;
      }
    }

    /** Closing leaves nothing pending: the timeline file is complete and in order. */
    method SyncAndClose()
      requires Valid()
      modifies this
      ensures Measured() && View() == old(LiveSpool.SyncAndClose(View()))
      ensures !old(closed) ==> closed && pending == map[] && skipped == {} && timelineFile == old(Eventual(View()))
    {
      hide LiveInv, Flush;
      if closed {
        return;
      }
      CloseWritesEverything(View());
      FlushReadyTimeline(true);
      closed := true;
    }
  }
}
