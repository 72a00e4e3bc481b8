/** The relay side of the live recorder as the object the pump tasks call. Each method is one atomic piece under the
    recorder's lock and is proved to be the corresponding step of RecorderModel. The worker task's own state is
    kept in ghost fields. */
module Recorders {
  import opened Options
  import opened RchBytes
  import opened CapturedJobs
  import opened LiveSpool
  import opened RecorderModel

  class JobCaptureManager {
    const maxPayloadBytes: nat
    const maxCaptureEvents: nat
    const queueItems: nat
    var active: CapturedJob?
    var closed: bool
    var eventSequence: nat
    var requestOffset: nat
    var responseOffset: nat
    var streamQueue: seq<Command>
    var persistErrors: seq<string>
    var captureDegraded: bool
    var finalizeRequested: bool
    ghost var job: CapturedJob?
    ghost var outstanding: map<nat, CaptureToken>
    ghost var current: Option<Command>
    ghost var crashed: bool
    ghost var worker: Worker
    ghost var live: Live
    ghost var published: Option<Publication>

    ghost function JobView(): Job
      reads this, job
    {
      if job == null then NewJob(maxPayloadBytes, maxCaptureEvents) else job.View()
    }

    ghost function View(): Recorder
      reads this, job
    {
      Recorder(queueItems, JobView(), active != null, closed, eventSequence, outstanding, streamQueue, current,
               captureDegraded, persistErrors != [], crashed, finalizeRequested, worker, live, published)
    }

    ghost predicate Valid()
      reads this, job
    {
      && (active != null ==> active == job)
      && (job != null ==> job.Valid() && job.maxPayloadBytes == maxPayloadBytes && job.maxCaptureEvents == maxCaptureEvents)
      && (active == null && !closed ==> job == null)
      && requestOffset == |JobView().seen.request| && responseOffset == |JobView().seen.response|
    }

    constructor (maxPayloadBytes: nat, maxCaptureEvents: nat, bufferSize: nat)
      requires bufferSize > 0
      ensures Valid() && View() == NewRecorder(maxPayloadBytes, maxCaptureEvents, QueueItems(bufferSize))
    {
      this.maxPayloadBytes, this.maxCaptureEvents, this.queueItems := maxPayloadBytes, maxCaptureEvents, QueueItems(bufferSize);
      active, closed, eventSequence, requestOffset, responseOffset := null, false, 0, 0, 0;
      streamQueue, persistErrors, captureDegraded, finalizeRequested := [], [], false, false;
      job, outstanding, current, crashed, worker, live, published := null, map[], None, false, Unstarted, NEW_LIVE, None;
    }

    method Record(d: Direction, data: seq<byte>, receivedUnixNs: int) returns (token: Option<CaptureToken>)
      requires Valid()
      modifies this, active
      ensures Valid() && View() == old(RecorderModel.Record(View(), d, data, receivedUnixNs))
      ensures token == if data == [] || old(closed) then None else Some(old(Token(Started(View()), d, data)))
    {
      hide RecordChunk, Started, Token;
      if data == [] || closed {
        return None;
      }
      StartJob();
      var issued := RecordActive(d, data, receivedUnixNs);
      token := Some(issued);
    }

    method RecordActive(d: Direction, data: seq<byte>, receivedUnixNs: int) returns (token: CaptureToken)
      requires Valid() && active != null && data != []
      modifies this`eventSequence, this`requestOffset, this`responseOffset, this`outstanding, this`streamQueue,
               this`captureDegraded, active
      ensures Valid() && View() == old(RecordChunk(View(), d, data, receivedUnixNs))
      ensures token == old(Token(View(), d, data))
    {
      hide AppendTo, Enqueue, Stored, AppendIndex;
      var chunkIndex, stored := RememberChunk(d, data, receivedUnixNs);
      token := CaptureToken(chunkIndex, d, |data|, eventSequence);
      OfferStream(AppendCommand(eventSequence, d, stored, chunkIndex));
    }

    method RememberChunk(d: Direction, data: seq<byte>, receivedUnixNs: int) returns (chunkIndex: Option<nat>, stored: seq<byte>)
      requires Valid() && active != null && data != []
      modifies this`eventSequence, this`requestOffset, this`responseOffset, this`outstanding, active
      ensures Valid() && View() == old(Remember(View(), d, data, receivedUnixNs))
      ensures stored == old(Stored(JobView(), data)) && chunkIndex == old(AppendIndex(JobView(), data))
    {
      hide JobInv, AppendTo, AppendIndex, Stored;
      eventSequence := eventSequence + 1;
      chunkIndex, stored := StoreNext(d, data, receivedUnixNs);
      outstanding := outstanding[eventSequence := CaptureToken(chunkIndex, d, |data|, eventSequence)];
    }

    /** The chunk goes to the job at the current offset of its direction. */
    method StoreNext(d: Direction, data: seq<byte>, receivedUnixNs: int) returns (chunkIndex: Option<nat>, stored: seq<byte>)
      requires Valid() && active != null && data != []
      modifies this`requestOffset, this`responseOffset, active
      ensures Valid()
      ensures JobView() == old(AppendTo(JobView(), d, data, eventSequence, |JobView().seen.Of(d)|, receivedUnixNs))
      ensures stored == old(Stored(JobView(), data)) && chunkIndex == old(AppendIndex(JobView(), data))
    {
      hide JobInv, AppendTo, AppendIndex, Stored;
      AppendCounts(JobView(), d, data, eventSequence, |JobView().seen.Of(d)|, receivedUnixNs);
      var sessionOffset := if d.ClientToRch? then requestOffset else responseOffset;
      chunkIndex, stored := StoreChunk(active, d, data, eventSequence, sessionOffset, receivedUnixNs);
      AdvanceOffset(d, |data|);
    }

    /** The stored part of the data is found from the stored byte counts before and after. */
    static method StoreChunk(job: CapturedJob, d: Direction, data: seq<byte>, sequence: nat, sessionOffset: nat, receivedUnixNs: int)
      returns (chunkIndex: Option<nat>, stored: seq<byte>)
      requires job.Valid() && data != []
      modifies job
      ensures job.Valid() && job.View() == old(AppendTo(job.View(), d, data, sequence, sessionOffset, receivedUnixNs))
      ensures stored == old(Stored(job.View(), data)) && chunkIndex == old(AppendIndex(job.View(), data))
    {
      hide JobInv, AppendTo, AppendIndex, Stored;
      AppendCounts(job.View(), d, data, sequence, sessionOffset, receivedUnixNs);
      var beforeStored := if d.ClientToRch? then job.bytesStoredFromClient else job.bytesStoredFromPrinter;
      chunkIndex := job.Append(d, data, sequence, sessionOffset, receivedUnixNs, false);
      var afterStored := if d.ClientToRch? then job.bytesStoredFromClient else job.bytesStoredFromPrinter;
      stored := data[..afterStored - beforeStored];
    }

    method StartJob()
      requires Valid() && !closed
      modifies this`active, this`job, this`worker
      ensures Valid() && active != null && View() == old(Started(View()))
      ensures old(active) == null ==> fresh(active)
      ensures old(active) != null ==> active == old(active)
    {
      if active == null {
        active := new CapturedJob(maxPayloadBytes, maxCaptureEvents);
        job, worker := active, Opening;
      }
    }

    method AdvanceOffset(d: Direction, count: nat)
      modifies this`requestOffset, this`responseOffset
      ensures requestOffset == old(requestOffset) + (if d.ClientToRch? then count else 0)
      ensures responseOffset == old(responseOffset) + (if d.ClientToRch? then 0 else count)
    {
      if d.ClientToRch? {
        requestOffset := requestOffset + count;
      } else {
        responseOffset := responseOffset + count;
      }
    }

    /** The availability-first branch: a full queue degrades the capture instead of slowing the relay. */
    method EnqueueStream(command: Command)
      requires Valid() && active != null && persistErrors == [] && !captureDegraded
      modifies this`streamQueue, this`captureDegraded, active
      ensures Valid() && View() == old(Enqueue(View(), command))
    {
      if |streamQueue| < queueItems {
        streamQueue := streamQueue + [command];
      } else {
        captureDegraded := true;
        active.captureComplete := false;
        active.timelineComplete := false;
      }
    }

    /** After a failure or a dropped command nothing more is offered to the worker. */
    method OfferStream(command: Command)
      requires Valid() && active != null
      modifies this`streamQueue, this`captureDegraded, active
      ensures Valid() && View() == old(Enqueue(View(), command))
    {
      if persistErrors == [] && !captureDegraded {
        EnqueueStream(command);
      }
    }

    method MarkLocalWriteDrain(token: CaptureToken, drain: Drain)
      requires Valid()
      requires token.sequence in outstanding && outstanding[token.sequence] == token
      modifies this, active
      ensures Valid() && View() == old(Mark(View(), token.sequence, drain))
    {
      outstanding := outstanding - {token.sequence};
      if active == null {
        return;
      }
      active.MarkLocalWriteDrain(token, drain);
      OfferStream(DrainCommand(token.sequence, drain));
    }

    method Finalize(transportStatus: string)
      requires Valid()
      modifies this, active
      ensures Valid() && View() == old(RecorderModel.Finalize(View()))
    {
      closed := true;
      var finished := active;
      active := null;
      if finished != null {
        finished.Finish(transportStatus);
        finalizeRequested := true;
      }
    }
  }
}
