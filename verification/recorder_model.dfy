/** The live recorder of one connection under the availability-first storage policy: relay tasks record chunks and
    drain marks and put commands into a bounded queue; one worker opens the staging directory, performs the
    commands and finally publishes. Every step is one atomic piece of a task; the steps of different tasks
    interleave freely and the process may crash between any two of them. */
module RecorderModel {
  import opened Options
  import opened RchBytes
  import opened CapturedJobs
  import opened LiveSpool

  const QUEUE_BYTE_BUDGET: nat := 8388608

  function QueueItems(bufferSize: nat): (items: nat)
    requires bufferSize > 0
    ensures 1 <= items <= 256
    ensures items > 1 ==> items * bufferSize <= QUEUE_BYTE_BUDGET
  {
    var fit := QUEUE_BYTE_BUDGET / bufferSize;
    if fit < 1 then 1 else if fit > 256 then 256 else fit
  }

  datatype Command =
    | AppendCommand(sequence: nat, direction: Direction, data: seq<byte>, chunkIndex: Option<nat>)
    | DrainCommand(sequence: nat, drain: Drain)

  datatype Worker = Unstarted | Opening | Running | Finished

  /** What the final rename made visible, and whether the manifest calls it complete. */
  datatype Publication = Publication(raw: Copies, timeline: seq<Chunk>, complete: bool)

  datatype Recorder = Recorder(
    capacity: nat,
    job: Job,
    active: bool,
    closed: bool,
    sequence: nat,
    outstanding: map<nat, CaptureToken>,
    queue: seq<Command>,
    current: Option<Command>,
    degraded: bool,
    failed: bool,
    crashed: bool,
    finalizeRequested: bool,
    worker: Worker,
    live: Live,
    published: Option<Publication>)

  function NewRecorder(maxPayload: nat, maxEvents: nat, capacity: nat): Recorder {
    Recorder(capacity, NewJob(maxPayload, maxEvents), false, false, 0, map[], [], None, false, false, false, false,
             Unstarted, NEW_LIVE, None)
  }

  function Incomplete(j: Job): Job {
    j.(captureComplete := false, timelineComplete := false)
  }

  /** A full queue drops this and every later command of the connection. */
  function Enqueue(r: Recorder, c: Command): Recorder {
    if r.failed || r.degraded then r
    else if |r.queue| < r.capacity then r.(queue := r.queue + [c])
    else r.(degraded := true, job := Incomplete(r.job))
  }

  function Started(r: Recorder): Recorder {
    if r.active then r else r.(active := true, worker := Opening)
  }

  /** The handle for the later drain mark. */
  function Token(r: Recorder, d: Direction, data: seq<byte>): CaptureToken {
    CaptureToken(AppendIndex(r.job, data), d, |data|, r.sequence + 1)
  }

  function Remember(r: Recorder, d: Direction, data: seq<byte>, now: int): Recorder {
    var sequence := r.sequence + 1;
    r.(sequence := sequence,
       job := AppendTo(r.job, d, data, sequence, |r.job.seen.Of(d)|, now),
       outstanding := r.outstanding[sequence := Token(r, d, data)])
  }

  function RecordChunk(r: Recorder, d: Direction, data: seq<byte>, now: int): Recorder {
    Enqueue(Remember(r, d, data, now), AppendCommand(r.sequence + 1, d, Stored(r.job, data), AppendIndex(r.job, data)))
  }

  function Record(r: Recorder, d: Direction, data: seq<byte>, now: int): Recorder {
    if data == [] || r.closed then r else RecordChunk(Started(r), d, data, now)
  }

  /** Each token is marked once, after its drain returned or failed. */
  function Mark(r: Recorder, sequence: nat, drain: Drain): Recorder
    requires sequence in r.outstanding
  {
    var s := r.(outstanding := r.outstanding - {sequence});
    if !r.active then s
    else
      Enqueue(s.(job := MarkChunk(r.job, r.outstanding[sequence].chunkIndex, drain)), DrainCommand(sequence, drain))
  }

  function Finalize(r: Recorder): Recorder {
    r.(closed := true, active := false, finalizeRequested := r.finalizeRequested || r.active)
  }

  /** Storage failure: the job is flagged and the staging files are closed without publication. */
  function Fail(r: Recorder, left: Live): Recorder {
    r.(failed := true, worker := Finished, current := None, job := Incomplete(r.job), live := left.(closed := true))
  }

  function Busy(r: Recorder): bool {
    !r.crashed && r.worker.Running? && r.current.Some?
  }

  function Pop(r: Recorder): Recorder
    requires r.queue != []
  {
    r.(current := Some(r.queue[0]), queue := r.queue[1..])
  }

  /** The record copied into the staging state is the job's own one at this moment. */
  function Performed(r: Recorder): Appended
    requires r.current.Some?
  {
    match r.current.value
    case AppendCommand(s, d, data, index) =>
      LiveAppend(r.live, s, d, data, if index.Some? && index.value < |r.job.chunks| then Some(r.job.chunks[index.value]) else None)
    case DrainCommand(s, drain) =>
      Appended(LiveDrain(r.live, s, drain), if r.live.closed then Some(Closed) else None)
  }

  function PerformCurrent(r: Recorder): Recorder
    requires r.current.Some?
  {
    var p := Performed(r);
    if p.error.Some? then Fail(r, p.live) else r.(live := p.live, current := None)
  }

  /** The staging files after a command was interrupted once it had written the first k bytes. */
  function Interrupted(r: Recorder, k: nat): Live {
    if r.current.Some? && r.current.value.AppendCommand? && k <= |r.current.value.data| then
      r.live.(raw := r.live.raw.Extend(r.current.value.direction, r.current.value.data[..k]))
    else r.live
  }

  function Publish(r: Recorder): Recorder {
    var l := SyncAndClose(r.live);
    r.(live := l, worker := Finished,
       published := Some(Publication(l.raw, l.timeline, r.job.captureComplete && r.job.timelineComplete)))
  }

  /** The worker found the queue empty after finalization was requested. */
  function Conclude(r: Recorder): Recorder {
    if r.degraded then r.(live := r.live.(closed := true), worker := Finished) else Publish(r)
  }

  datatype Step =
    | RecordStep(direction: Direction, data: seq<byte>, now: int)
    | MarkStep(sequence: nat, drain: Drain)
    | FinalizeStep
    | OpenStep
    | OpenFailsStep
    | PopStep
    | PerformStep
    | PerformFailsStep(written: nat)
    | ConcludeStep
    | PublicationFailsStep(renamed: bool)
    | CrashStep(written: nat)

  predicate Drained(r: Recorder) {
    !r.crashed && r.worker.Running? && r.current.None? && r.queue == [] && r.finalizeRequested
  }

  predicate Enabled(r: Recorder, step: Step) {
    match step
    case RecordStep(_, _, _) => !r.crashed
    case MarkStep(s, _) => !r.crashed && s in r.outstanding
    case FinalizeStep => !r.crashed
    case OpenStep => !r.crashed && r.worker.Opening?
    case OpenFailsStep => !r.crashed && r.worker.Opening?
    case PopStep => !r.crashed && r.worker.Running? && r.current.None? && r.queue != []
    case PerformStep => Busy(r)
    case PerformFailsStep(_) => Busy(r)
    case ConcludeStep => Drained(r)
    case PublicationFailsStep(_) => Drained(r) && !r.degraded
    case CrashStep(_) => !r.crashed
  }

  function Apply(r: Recorder, step: Step): Recorder
    requires Enabled(r, step)
  {
    match step
    case RecordStep(d, data, now) => Record(r, d, data, now)
    case MarkStep(s, drain) => Mark(r, s, drain)
    case FinalizeStep => Finalize(r)
    case OpenStep => r.(worker := Running)
    case OpenFailsStep => Fail(r, r.live)
    case PopStep => Pop(r)
    case PerformStep => PerformCurrent(r)
    case PerformFailsStep(k) => Fail(r, Interrupted(r, k))
    case ConcludeStep => Conclude(r)
    case PublicationFailsStep(renamed) => if renamed then Fail(Publish(r), Publish(r).live) else Fail(r, r.live)
    case CrashStep(k) => r.(crashed := true, live := Interrupted(r, k))
  }

  /** states[i + 1] follows states[i] by steps[i]. */
  predicate Run(states: seq<Recorder>, steps: seq<Step>) {
    && |states| == |steps| + 1
    && states[0] == NewRecorder(states[0].job.maxPayload, states[0].job.maxEvents, states[0].capacity)
    && forall i | 0 <= i < |steps| :: Enabled(states[i], steps[i]) && Apply(states[i], steps[i]) == states[i + 1]
  }
}
