/** The bounded queue between relay and worker: when a command is lost, and that ordinary captures are published. */
module RecorderQueue {
  import opened Options
  import opened RchBytes
  import opened CapturedJobs
  import opened LiveSpool
  import opened RecorderModel
  import opened RecorderInvariant
  import opened RecorderTheorems

  /** The relay offers the worker a command: a received chunk of an open connection or the drain mark of one, as long
      as nothing was lost yet. */
  predicate Offers(r: Recorder, step: Step) {
    && !r.failed && !r.degraded
    && match step
       case RecordStep(_, data, _) => data != [] && !r.closed
       case MarkStep(_, _) => r.active
       case _ => false
  }

  /** c tells the worker what the step from r to t did. */
  predicate Tells(r: Recorder, step: Step, t: Recorder, c: Command) {
    match step
    case RecordStep(d, data, _) =>
      && c.AppendCommand? && c.direction == d && c.sequence == t.sequence == r.sequence + 1
      && c.data <= data && t.job.kept.Of(d) == r.job.kept.Of(d) + c.data
      && (if |t.job.chunks| == |r.job.chunks| then c.chunkIndex.None? else c.chunkIndex == Some(|r.job.chunks|))
    case MarkStep(s, drain) => c == DrainCommand(s, drain)
    case _ => false
  }

  /** What becomes of an offer: exactly one command at the end of the queue or, if there is no room, a degraded capture
      whose evidence is marked incomplete. */
  predicate Settles(r: Recorder, step: Step, t: Recorder) {
    if |r.queue| < r.capacity then
      && |t.queue| == |r.queue| + 1 && t.queue[..|r.queue|] == r.queue && Tells(r, step, t, t.queue[|r.queue|])
      && !t.degraded
    else
      t.queue == r.queue && t.degraded && !t.job.captureComplete && !t.job.timelineComplete
  }

  lemma RecordSettles(r: Recorder, step: Step)
    requires Enabled(r, step) && step.RecordStep? && Offers(r, step)
    ensures Settles(r, step, Apply(r, step))
  {
    hide Bytes, Placed;
    AppendCounts(r.job, step.direction, step.data, r.sequence + 1, |r.job.seen.Of(step.direction)|, step.now);
  }

  lemma MarkSettles(r: Recorder, step: Step)
    requires Enabled(r, step) && step.MarkStep? && Offers(r, step)
    ensures Settles(r, step, Apply(r, step))
  {
  }

  lemma RecordNoOffer(r: Recorder, step: Step)
    requires Enabled(r, step) && step.RecordStep? && !Offers(r, step)
    ensures Apply(r, step).degraded == r.degraded && Apply(r, step).queue == r.queue
  {
    hide AppendTo, AppendIndex, Stored;
  }

  lemma MarkNoOffer(r: Recorder, step: Step)
    requires Enabled(r, step) && step.MarkStep? && !Offers(r, step)
    ensures Apply(r, step).degraded == r.degraded && Apply(r, step).queue == r.queue
  {
    hide MarkChunk;
  }

  /** t has the queue and the events of r and is not more degraded. */
  predicate SameQueue(r: Recorder, t: Recorder) {
    t.queue == r.queue && t.degraded == r.degraded && t.capacity == r.capacity && t.job.chunks == r.job.chunks
  }

  lemma PerformLeavesQueue(r: Recorder)
    requires r.current.Some?
    ensures SameQueue(r, PerformCurrent(r))
  {
    hide Performed;
  }

  lemma PublishLeavesQueue(r: Recorder)
    ensures SameQueue(r, Publish(r)) && SameQueue(r, Conclude(r))
  {
    hide SyncAndClose;
  }

  lemma OtherNoOffer(r: Recorder, step: Step)
    requires Enabled(r, step) && !step.RecordStep? && !step.MarkStep?
    ensures var t := Apply(r, step);
            && t.degraded == r.degraded && t.capacity == r.capacity && t.job.chunks == r.job.chunks
            && t.queue == if step.PopStep? then r.queue[1..] else r.queue
  {
    hide PerformCurrent, Publish, Conclude, Interrupted;
    PublishLeavesQueue(r);
    if step.PerformStep? {
      PerformLeavesQueue(r);
    }
  }

  /** Whatever is no offer leaves the queue, except that the worker takes its head, and degrades nothing. */
  lemma NoOffer(r: Recorder, step: Step)
    requires Enabled(r, step) && !Offers(r, step)
    ensures var t := Apply(r, step);
            t.degraded == r.degraded && t.queue == if step.PopStep? then r.queue[1..] else r.queue
  {
    hide Apply, Enabled, Offers;
    if step.RecordStep? {
      RecordNoOffer(r, step);
    } else if step.MarkStep? {
      MarkNoOffer(r, step);
    } else {
      OtherNoOffer(r, step);
    }
  }

  /** An offer is queued if there is room and otherwise degrades the capture; nothing else does. */
  lemma OfferSettles(r: Recorder, step: Step)
    requires Enabled(r, step) && Offers(r, step)
    ensures Settles(r, step, Apply(r, step))
  {
    hide Settles, Apply;
    if step.RecordStep? {
      RecordSettles(r, step);
    } else {
      MarkSettles(r, step);
    }
  }

  lemma CapacityStays(r: Recorder, step: Step)
    requires Enabled(r, step)
    ensures Apply(r, step).capacity == r.capacity
  {
    if step.RecordStep? || step.MarkStep? {
      hide AppendTo, AppendIndex, Stored, MarkChunk;
    } else {
      hide Apply, Enabled;
      OtherNoOffer(r, step);
    }
  }

  /** The queue never holds more commands than its capacity. */
  lemma {:induction false} QueueBounded(states: seq<Recorder>, steps: seq<Step>, i: nat)
    requires Run(states, steps) && i < |states|
    ensures |states[i].queue| <= states[i].capacity == states[0].capacity
  {
    if i > 0 {
      hide Apply, Tells;
      var r, step := states[i - 1], steps[i - 1];
      QueueBounded(states, steps, i - 1);
      CapacityStays(r, step);
      if Offers(r, step) {
        OfferSettles(r, step);
      } else {
        NoOffer(r, step);
      }
    }
  }

  /** A capture is degraded at exactly one kind of moment: when the relay offers a command and the queue is full. */
  lemma DegradedExactlyWhenFull(states: seq<Recorder>, steps: seq<Step>, i: nat)
    requires Run(states, steps) && i < |steps| && !states[i].degraded
    ensures states[i + 1].degraded <==> Offers(states[i], steps[i]) && |states[i].queue| == states[i].capacity
  {
    hide Apply, Tells;
    var r, step := states[i], steps[i];
    QueueBounded(states, steps, i);
    if Offers(r, step) {
      OfferSettles(r, step);
    } else {
      NoOffer(r, step);
    }
  }

  // ---------------------------------------------------------------- every loss is flagged

  predicate StorageFails(step: Step) {
    step.OpenFailsStep? || step.PerformFailsStep? || step.PublicationFailsStep?
  }

  /** A capture that lost something says in its job that bytes and events may be missing. */
  predicate Flagged(r: Recorder) {
    r.failed || r.degraded ==> !r.job.captureComplete && !r.job.timelineComplete
  }

  lemma EnqueueFlags(r: Recorder, c: Command)
    requires Flagged(r)
    ensures Flagged(Enqueue(r, c)) && Enqueue(r, c).failed == r.failed
  {
  }

  lemma RelayFlags(r: Recorder, step: Step)
    requires Flagged(r) && Enabled(r, step) && (step.RecordStep? || step.MarkStep?)
    ensures Flagged(Apply(r, step)) && Apply(r, step).failed == r.failed
  {
    if step.RecordStep? {
      if step.data != [] && !r.closed {
        var t := Remember(Started(r), step.direction, step.data, step.now);
        var c := AppendCommand(r.sequence + 1, step.direction, Stored(r.job, step.data), AppendIndex(r.job, step.data));
        assert Flagged(t);
        EnqueueFlags(t, c);
        hide Enqueue;
        assert Apply(r, step) == Enqueue(t, c);
      }
    } else if r.active {
      EnqueueFlags(Marked(r, step.sequence, step.drain), DrainCommand(step.sequence, step.drain));
      hide Enqueue;
    }
  }

  lemma WorkerFlags(r: Recorder, step: Step)
    requires Inv(r) && Flagged(r) && Enabled(r, step) && !step.RecordStep? && !step.MarkStep?
    ensures Flagged(Apply(r, step)) && (Apply(r, step).failed <==> r.failed || StorageFails(step))
  {
    if step.PerformStep? {
      NeverRejected(r);
    }
    hide Inv, Performed, SyncAndClose, Interrupted;
  }

  lemma {:induction false} RunFlags(states: seq<Recorder>, steps: seq<Step>, i: nat)
    requires Run(states, steps) && i < |states|
    ensures Flagged(states[i])
  {
    if i > 0 {
      hide Inv, Apply, Enabled, Flagged;
      RunFlags(states, steps, i - 1);
      RunKeeps(states, steps, i - 1);
      StepFlags(states[i - 1], steps[i - 1]);
    }
  }

  lemma StepFlags(r: Recorder, step: Step)
    requires Inv(r) && Flagged(r) && Enabled(r, step)
    ensures Flagged(Apply(r, step)) && (Apply(r, step).failed <==> r.failed || StorageFails(step))
  {
    hide Inv, Apply, Enabled, Flagged;
    if step.RecordStep? || step.MarkStep? {
      RelayFlags(r, step);
    } else {
      WorkerFlags(r, step);
    }
  }

  /** In every run a capture has failed exactly if storage failed on the way, and one that failed or was degraded says
      that it may be incomplete. */
  lemma LossIsFlagged(states: seq<Recorder>, steps: seq<Step>, i: nat)
    requires Run(states, steps) && i < |states|
    ensures states[i].failed || states[i].degraded ==> !states[i].job.captureComplete && !states[i].job.timelineComplete
    ensures i < |steps| ==> (states[i + 1].failed <==> states[i].failed || StorageFails(steps[i]))
  {
    hide Inv, Apply, Enabled, StorageFails;
    RunFlags(states, steps, i);
    if i < |steps| {
      RunKeeps(states, steps, i);
      StepFlags(states[i], steps[i]);
    }
  }

  // ---------------------------------------------------------------- what an event tells

  /** The event was made from the bytes that this step received. */
  predicate EventOf(r: Recorder, step: Step, c: Chunk) {
    && step.RecordStep?
    && c.direction == step.direction && c.receivedUnixNs == step.now
    && c.sequence == r.sequence + 1
    && c.sessionOffset == |r.job.seen.Of(step.direction)| && c.offset == |r.job.kept.Of(step.direction)|
    && c.digest != [] && c.digest <= step.data && c.byteCount == |c.digest|
  }

  /** The step adds an event made from what it received, or changes drain marks at most. */
  predicate AddsEvent(r: Recorder, step: Step, after: seq<Chunk>) {
    var before := r.job.chunks;
    && (|after| == |before| || (|after| == |before| + 1 && EventOf(r, step, after[|before|])))
    && forall i | 0 <= i < |before| :: after[i].(drain := None) == before[i].(drain := None)
  }

  lemma EnqueueKeepsChunks(r: Recorder, c: Command)
    ensures Enqueue(r, c).job.chunks == r.job.chunks
  {
  }

  lemma RecordAddsEvent(r: Recorder, step: Step)
    requires Enabled(r, step) && step.RecordStep?
    ensures AddsEvent(r, step, Apply(r, step).job.chunks)
  {
    if step.data != [] && !r.closed {
      var t := Remember(Started(r), step.direction, step.data, step.now);
      var c := AppendCommand(r.sequence + 1, step.direction, Stored(r.job, step.data), AppendIndex(r.job, step.data));
      EnqueueKeepsChunks(t, c);
      hide Enqueue;
      assert Apply(r, step) == Enqueue(t, c);
    }
  }

  lemma MarkAddsNone(r: Recorder, step: Step)
    requires Enabled(r, step) && step.MarkStep?
    ensures AddsEvent(r, step, Apply(r, step).job.chunks)
  {
    hide EventOf;
  }

  lemma StepEvents(r: Recorder, step: Step)
    requires Enabled(r, step)
    ensures AddsEvent(r, step, Apply(r, step).job.chunks)
  {
    hide Apply, Enabled, EventOf;
    if step.RecordStep? {
      RecordAddsEvent(r, step);
    } else if step.MarkStep? {
      MarkAddsNone(r, step);
    } else {
      OtherNoOffer(r, step);
    }
  }

  /** Every event of the job, and so every record published, tells when and at which offsets its bytes arrived. */
  lemma {:induction false} EventsTellCalls(states: seq<Recorder>, steps: seq<Step>, i: nat, k: nat) returns (call: nat)
    requires Run(states, steps) && i < |states| && k < |states[i].job.chunks|
    ensures call < i && EventOf(states[call], steps[call], states[i].job.chunks[k])
  {
    hide Apply, Enabled;
    assert i > 0;
    StepEvents(states[i - 1], steps[i - 1]);
    if k < |states[i - 1].job.chunks| {
      call := EventsTellCalls(states, steps, i - 1, k);
    } else {
      call := i - 1;
    }
  }

  /** A step sets the drain mark of the one event it names and of no other. */
  predicate SetsDrain(r: Recorder, step: Step, t: Recorder) {
    && |r.job.chunks| <= |t.job.chunks|
    && (forall k | |r.job.chunks| <= k < |t.job.chunks| :: t.job.chunks[k].drain.None?)
    && forall k | 0 <= k < |r.job.chunks| ::
         t.job.chunks[k].drain == if step.MarkStep? && r.active && step.sequence == k + 1 then Some(step.drain) else r.job.chunks[k].drain
  }

  lemma MarkSetsDrain(r: Recorder, step: Step)
    requires JobPart(r) && Enabled(r, step) && step.MarkStep?
    ensures SetsDrain(r, step, Apply(r, step))
  {
    assert TokenOk(r, step.sequence);
    hide Bytes, Placed;
    if r.active {
      EnqueueKeepsChunks(Marked(r, step.sequence, step.drain), DrainCommand(step.sequence, step.drain));
      hide Enqueue;
    }
  }

  lemma RecordSetsNone(r: Recorder, step: Step)
    requires Enabled(r, step) && step.RecordStep?
    ensures SetsDrain(r, step, Apply(r, step))
  {
    if step.data != [] && !r.closed {
      var t := Remember(Started(r), step.direction, step.data, step.now);
      var c := AppendCommand(r.sequence + 1, step.direction, Stored(r.job, step.data), AppendIndex(r.job, step.data));
      EnqueueKeepsChunks(t, c);
      hide Enqueue;
      assert Apply(r, step) == Enqueue(t, c);
    }
  }

  lemma StepSetsDrain(r: Recorder, step: Step)
    requires Inv(r) && Enabled(r, step)
    ensures SetsDrain(r, step, Apply(r, step))
  {
    hide Apply, Enabled, JobPart;
    if step.RecordStep? {
      RecordSetsNone(r, step);
    } else if step.MarkStep? {
      MarkSetsDrain(r, step);
    } else {
      OtherNoOffer(r, step);
    }
  }

  /** The drain mark of an event, and so of its published record, is the one that a mark call gave for its sequence. */
  lemma {:induction false} DrainsTellCalls(states: seq<Recorder>, steps: seq<Step>, i: nat, k: nat) returns (call: nat)
    requires Run(states, steps) && i < |states| && k < |states[i].job.chunks| && states[i].job.chunks[k].drain.Some?
    ensures states[i].job.chunks[k].sequence == k + 1
    ensures call < i && steps[call] == MarkStep(k + 1, states[i].job.chunks[k].drain.value)
  {
    hide Apply, Enabled, Inv, NewRecorder;
    RunKeeps(states, steps, i);
    NumberedEvents(states[i]);
    FirstIsNew(states, steps);
    RunKeeps(states, steps, i - 1);
    StepSetsDrain(states[i - 1], steps[i - 1]);
    if k < |states[i - 1].job.chunks| && states[i - 1].job.chunks[k].drain == states[i].job.chunks[k].drain {
      call := DrainsTellCalls(states, steps, i - 1, k);
    } else {
      call := i - 1;
    }
  }

  lemma FirstIsNew(states: seq<Recorder>, steps: seq<Step>)
    requires Run(states, steps)
    ensures states[0].job.chunks == []
  {
    hide Apply, Enabled;
  }

  lemma NumberedEvents(r: Recorder)
    requires Inv(r)
    ensures forall k | 0 <= k < |r.job.chunks| :: r.job.chunks[k].sequence == k + 1
  {
    hide JobInv, Honest, TokenOk;
  }

  /** A mark call on an event of the active connection is recorded. */
  lemma MarkIsRecorded(states: seq<Recorder>, steps: seq<Step>, i: nat, drain: Drain, k: nat)
    requires Run(states, steps) && i < |steps| && steps[i] == MarkStep(k + 1, drain)
    requires states[i].active && k < |states[i].job.chunks|
    ensures k < |states[i + 1].job.chunks| && states[i + 1].job.chunks[k].drain == Some(drain)
  {
    RunKeeps(states, steps, i);
    hide Apply, Enabled, Inv;
    StepSetsDrain(states[i], steps[i]);
  }

  // ---------------------------------------------------------------- ordinary captures are published

  /** Storage works and the process lives. */
  predicate Undisturbed(step: Step) {
    !step.OpenFailsStep? && !step.PerformFailsStep? && !step.PublicationFailsStep? && !step.CrashStep?
  }

  /** Nothing was lost, a finished worker has published, and a started one has work or was told to finish. */
  predicate Intact(r: Recorder) {
    && !r.degraded && !r.failed && !r.crashed
    && (r.worker.Finished? ==> r.published.Some?)
    && (r.active || r.finalizeRequested <==> !r.worker.Unstarted?)
  }

  lemma NotDegraded(r: Recorder, step: Step)
    requires Enabled(r, step) && !r.degraded && (Offers(r, step) ==> |r.queue| < r.capacity)
    ensures !Apply(r, step).degraded
  {
    hide Apply, Tells;
    if Offers(r, step) {
      OfferSettles(r, step);
    } else {
      NoOffer(r, step);
    }
  }

  lemma IntactStep(r: Recorder, step: Step)
    requires Inv(r) && Intact(r) && Enabled(r, step) && Undisturbed(step)
    requires Offers(r, step) ==> |r.queue| < r.capacity
    ensures Intact(Apply(r, step))
  {
    NotDegraded(r, step);
    if step.PerformStep? {
      NeverRejected(r);
    }
    hide Inv, Performed, SyncAndClose, AppendTo, MarkChunk;
  }

  lemma {:induction false} IntactRun(states: seq<Recorder>, steps: seq<Step>, i: nat)
    requires Run(states, steps) && i < |states|
    requires forall k | 0 <= k < |steps| :: Undisturbed(steps[k])
    requires forall k | 0 <= k < |steps| && Offers(states[k], steps[k]) :: |states[k].queue| < states[k].capacity
    ensures Intact(states[i])
  {
    if i > 0 {
      hide Inv, Apply, Enabled, Intact, Offers, Undisturbed;
      IntactRun(states, steps, i - 1);
      RunKeeps(states, steps, i - 1);
      IntactStep(states[i - 1], steps[i - 1]);
    }
  }

  /** What a finished worker published says what the job holds. */
  lemma PublishedSays(r: Recorder)
    requires Inv(r) && Intact(r) && r.published.Some?
    ensures r.published == Some(Publication(r.job.kept, r.job.chunks, r.job.captureComplete && r.job.timelineComplete))
  {
    hide Bytes, JobInv, Exhausted, TokenOk;
  }

  /** A capture that received something while the worker kept up, with working storage, is published after the
      connection closes: finalization and the worker's own steps lead there. */
  lemma OrdinaryCapturePublishes(states: seq<Recorder>, steps: seq<Step>) returns (more: seq<Step>, s: Recorder)
    requires Run(states, steps) && !states[|steps|].worker.Unstarted?
    requires forall k | 0 <= k < |steps| :: Undisturbed(steps[k])
    requires forall k | 0 <= k < |steps| && Offers(states[k], steps[k]) :: |states[k].queue| < states[k].capacity
    ensures Leads(states[|steps|], more, s)
    ensures forall i | 0 <= i < |more| :: more[i].FinalizeStep? || WorkerStep(more[i])
    ensures var j := states[|steps|].job;
            s.published == Some(Publication(j.kept, j.chunks, j.captureComplete && j.timelineComplete))
  {
    hide Inv, Leads, Undisturbed, Conclude, PerformCurrent, Record, Mark;
    var r := states[|steps|];
    IntactRun(states, steps, |steps|);
    RunKeeps(states, steps, |steps|);
    if r.published.Some? {
      more, s := [], r;
      NoSteps(r);
      PublishedSays(r);
    } else {
      FinalizeKeeps(r);
      var t := Apply(r, FinalizeStep);
      var rest;
      rest, s := WorkerPublishes(t);
      more := [FinalizeStep] + rest;
      LeadsBy(r, FinalizeStep, rest, s);
    }
  }
}
