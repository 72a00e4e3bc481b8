/** What the live recorder guarantees over whole runs. */
module RecorderTheorems {
  import opened Options
  import opened RchBytes
  import opened CapturedJobs
  import opened LiveSpool
  import opened RecorderModel
  import opened RecorderInvariant

  /** In every reachable state each directional RAW file is a prefix of the bytes observed in that direction, and a
      published job holds exactly the stored bytes and one record per retained event with its final drain mark.
      Its manifest says complete if and only if no byte was cut off and no event is missing. */
  lemma PublishedOnlyComplete(states: seq<Recorder>, steps: seq<Step>, i: nat)
    requires Run(states, steps) && i < |states|
    ensures var r := states[i];
            && (forall d: Direction :: r.live.raw.Of(d) <= r.job.kept.Of(d) <= r.job.seen.Of(d))
            && (r.published.Some? ==>
                  var p := r.published.value;
                  && r.finalizeRequested
                  && p.raw == r.job.kept && p.timeline == r.job.chunks
                  && (p.complete <==>
                        && r.job.kept == r.job.seen
                        && forall d: Direction :: Bytes(r.job.chunks, d) == r.job.kept.Of(d)))
  {
    hide Run, Bytes, Placed;
    RunKeeps(states, steps, i);
    var r := states[i];
    forall d: Direction ensures r.live.raw.Of(d) <= r.job.kept.Of(d) <= r.job.seen.Of(d) {
      assert CopiesOk(r.job);
    }
  }

  /** Nothing is published any more. */
  predicate Lost(r: Recorder) {
    r.published.None? && (r.degraded || r.failed || r.crashed)
  }

  lemma LostStep(r: Recorder, step: Step)
    requires Enabled(r, step) && Lost(r) && (r.failed ==> r.worker.Finished?)
    ensures Lost(Apply(r, step))
  {
  }

  lemma FailedIsFinished(states: seq<Recorder>, steps: seq<Step>, i: nat)
    requires Run(states, steps) && i < |states|
    ensures states[i].failed ==> states[i].worker.Finished?
  {
    hide Run, JobPart, QueuePart, LivePart, PublishedOk;
    RunKeeps(states, steps, i);
  }

  /** After a dropped command, a storage failure or a crash an unpublished job is never published. */
  lemma {:induction false} LostForever(states: seq<Recorder>, steps: seq<Step>, i: nat, j: nat)
    requires Run(states, steps) && i <= j < |states| && Lost(states[i])
    ensures Lost(states[j])
    decreases j
  {
    hide Lost, Enabled, Apply;
    if i < j {
      LostForever(states, steps, i, j - 1);
      FailedIsFinished(states, steps, j - 1);
      LostStep(states[j - 1], steps[j - 1]);
    }
  }

  // ---------------------------------------------------------------- the one-shot archive

  /** The recorder without live storage: it keeps the payload in memory and archives the job when the connection
      closes. */
  datatype OneShot = OneShot(job: Job, active: bool, closed: bool, sequence: nat, outstanding: map<nat, CaptureToken>)

  /** The relay's calls act on it as on the live recorder; nothing else does. */
  function Replay(o: OneShot, step: Step): OneShot {
    match step
    case RecordStep(d, data, now) =>
      if data == [] || o.closed then o
      else
        OneShot(AppendTo(o.job, d, data, o.sequence + 1, |o.job.seen.Of(d)|, now), true, false, o.sequence + 1,
                o.outstanding[o.sequence + 1 := CaptureToken(AppendIndex(o.job, data), d, |data|, o.sequence + 1)])
    case MarkStep(s, drain) =>
      if s !in o.outstanding then o
      else
        var job := if o.active then MarkChunk(o.job, o.outstanding[s].chunkIndex, drain) else o.job;
        o.(outstanding := o.outstanding - {s}, job := job)
    case FinalizeStep => o.(closed := true, active := false)
    case _ => o
  }

  function ReplayAll(maxPayload: nat, maxEvents: nat, steps: seq<Step>): OneShot {
    if steps == [] then OneShot(NewJob(maxPayload, maxEvents), false, false, 0, map[])
    else Replay(ReplayAll(maxPayload, maxEvents, steps[..|steps| - 1]), steps[|steps| - 1])
  }

  /** The one-shot archive saw the same history: only completeness flags may differ. */
  predicate SameHistory(r: Recorder, o: OneShot) {
    && Incomplete(r.job) == Incomplete(o.job)
    && r.active == o.active && r.closed == o.closed && r.sequence == o.sequence && r.outstanding == o.outstanding
  }

  lemma SameRecord(r: Recorder, o: OneShot, d: Direction, data: seq<byte>, now: int)
    requires SameHistory(r, o)
    ensures SameHistory(Record(r, d, data, now), Replay(o, RecordStep(d, data, now)))
  {
    hide Enqueue;
    if data != [] && !r.closed {
      assert Stored(r.job, data) == Stored(o.job, data);
      var t := Remember(Started(r), d, data, now);
      EnqueueHistory(t, AppendCommand(t.sequence, d, Stored(r.job, data), AppendIndex(r.job, data)));
    }
  }

  lemma SameMark(r: Recorder, o: OneShot, s: nat, drain: Drain)
    requires SameHistory(r, o) && s in r.outstanding
    ensures SameHistory(Mark(r, s, drain), Replay(o, MarkStep(s, drain)))
  {
    hide Enqueue;
    if r.active {
      EnqueueHistory(Marked(r, s, drain), DrainCommand(s, drain));
    }
  }

  lemma EnqueueHistory(r: Recorder, c: Command)
    ensures var u := Enqueue(r, c);
            && Incomplete(u.job) == Incomplete(r.job)
            && u.active == r.active && u.closed == r.closed && u.sequence == r.sequence && u.outstanding == r.outstanding
  {
  }

  lemma SameHistoryStep(r: Recorder, o: OneShot, step: Step)
    requires SameHistory(r, o) && Enabled(r, step)
    ensures SameHistory(Apply(r, step), Replay(o, step))
  {
    hide LiveAppend, LiveDrain, Flush, Performed, Interrupted, Record, Mark;
    match step
    case RecordStep(d, data, now) => SameRecord(r, o, d, data, now);
    case MarkStep(s, drain) => SameMark(r, o, s, drain);
    case _ =>
  }

  lemma {:induction false} HistoryIsReplayed(states: seq<Recorder>, steps: seq<Step>, i: nat)
    requires Run(states, steps) && i < |states|
    ensures SameHistory(states[i], ReplayAll(states[0].job.maxPayload, states[0].job.maxEvents, steps[..i]))
  {
    if i > 0 {
      HistoryIsReplayed(states, steps, i - 1);
      assert steps[..i][..i - 1] == steps[..i - 1];
      var o := ReplayAll(states[0].job.maxPayload, states[0].job.maxEvents, steps[..i - 1]);
      hide SameHistory, Apply, Enabled, Replay;
      SameHistoryStep(states[i - 1], o, steps[i - 1]);
    }
  }

  lemma ReplayHonest(o: OneShot, step: Step)
    requires JobInv(o.job) && Honest(o.job)
    ensures JobInv(Replay(o, step).job) && Honest(Replay(o, step).job)
  {
    hide JobInv, Honest, AppendTo, MarkChunk;
    match step
    case RecordStep(d, data, now) =>
      if data != [] && !o.closed {
        AppendKeepsInv(o.job, d, data, o.sequence + 1, |o.job.seen.Of(d)|, now);
        AppendHonest(o.job, d, data, o.sequence + 1, |o.job.seen.Of(d)|, now);
      }
    case MarkStep(s, drain) =>
      if s in o.outstanding {
        MarkKeepsInv(o.job, o.outstanding[s].chunkIndex, drain);
        MarkHonest(o.job, o.outstanding[s].chunkIndex, drain);
      }
    case _ =>
  }

  /** The one-shot archive's flags are exact: nothing but the two limits makes it incomplete. */
  lemma {:induction false} ReplayAllHonest(maxPayload: nat, maxEvents: nat, steps: seq<Step>)
    ensures var j := ReplayAll(maxPayload, maxEvents, steps).job; JobInv(j) && Honest(j)
  {
    if steps != [] {
      hide JobInv, Honest, Replay;
      ReplayAllHonest(maxPayload, maxEvents, steps[..|steps| - 1]);
      ReplayHonest(ReplayAll(maxPayload, maxEvents, steps[..|steps| - 1]), steps[|steps| - 1]);
    }
  }

  /** The streaming writer publishes what the one-shot archive of the same event history would write: the same
      request bytes, response bytes, timeline records and completeness, in whatever order the drain marks of the two
      directions and the worker's steps came. */
  lemma StreamingEqualsArchive(states: seq<Recorder>, steps: seq<Step>, i: nat)
    requires Run(states, steps) && i < |states| && states[i].published.Some?
    ensures var o := ReplayAll(states[0].job.maxPayload, states[0].job.maxEvents, steps[..i]);
            var p := states[i].published.value;
            && p.raw == o.job.kept && p.timeline == o.job.chunks
            && p.complete == (o.job.captureComplete && o.job.timelineComplete)
  {
    assert i <= |steps|;
    hide Run, ReplayAll, Bytes;
    PublishedOnlyComplete(states, steps, i);
    HistoryIsReplayed(states, steps, i);
    ReplayAllHonest(states[0].job.maxPayload, states[0].job.maxEvents, steps[..i]);
  }

  // ---------------------------------------------------------------- the worker gets there

  /** The steps lead from r to s. */
  predicate Leads(r: Recorder, steps: seq<Step>, s: Recorder)
    decreases |steps|
  {
    if steps == [] then r == s
    else Enabled(r, steps[0]) && Leads(Apply(r, steps[0]), steps[1..], s)
  }

  lemma LeadsBy(r: Recorder, step: Step, steps: seq<Step>, s: Recorder)
    requires Enabled(r, step) && Leads(Apply(r, step), steps, s)
    ensures Leads(r, [step] + steps, s)
  {
    assert ([step] + steps)[1..] == steps;
  }

  predicate WorkerStep(step: Step) {
    step.OpenStep? || step.PopStep? || step.PerformStep? || step.ConcludeStep?
  }

  /** No accepted capture is stuck: once the connection is finalized, the worker's own steps publish the job
      unless something was dropped, failed or crashed. */
  lemma {:induction false} WorkerPublishes(r: Recorder) returns (steps: seq<Step>, s: Recorder)
    requires Inv(r) && Working(r) && r.finalizeRequested && !r.degraded && !r.worker.Unstarted?
    ensures Leads(r, steps, s) && (forall i | 0 <= i < |steps| :: WorkerStep(steps[i]))
    ensures s.published == Some(Publication(r.job.kept, r.job.chunks, r.job.captureComplete && r.job.timelineComplete))
    decreases |r.queue|, r.current.Some?, r.worker.Opening?
  {
    hide Inv, PerformCurrent, Leads;
    var step := NextStep(r);
    var t := Apply(r, step);
    StepKeeps(r, step);
    if step.ConcludeStep? {
      PublishedNow(r);
      steps, s := [step], t;
      NoSteps(t);
      LeadsBy(r, step, [], t);
      assert [step] + [] == [step];
    } else {
      NextFrame(r);
      var rest;
      rest, s := WorkerPublishes(t);
      steps := [step] + rest;
      LeadsBy(r, step, rest, s);
    }
  }

  function NextStep(r: Recorder): Step {
    if r.worker.Opening? then OpenStep
    else if r.current.Some? then PerformStep
    else if r.queue != [] then PopStep
    else ConcludeStep
  }

  lemma NoSteps(r: Recorder)
    ensures Leads(r, [], r)
  {
  }

  lemma PublishedNow(r: Recorder)
    requires Inv(r) && Drained(r) && Working(r) && !r.degraded
    ensures Conclude(r).published ==
            Some(Publication(r.job.kept, r.job.chunks, r.job.captureComplete && r.job.timelineComplete))
  {
    hide JobPart, QueuePart, LivePart, Bytes;
    PublishKeeps(r);
  }

  lemma NextFrame(r: Recorder)
    requires Inv(r) && Working(r) && !r.worker.Unstarted? && !NextStep(r).ConcludeStep?
    ensures Enabled(r, NextStep(r))
    ensures var t := Apply(r, NextStep(r));
            && t.job == r.job && Working(t) && t.finalizeRequested == r.finalizeRequested && t.degraded == r.degraded
            && !t.worker.Unstarted?
            && (t.worker.Opening? ==> r.worker.Opening?)
            && |Commands(t)| <= |Commands(r)|
            && (NextStep(r).PerformStep? ==> t.queue == r.queue && t.current.None?)
  {
    hide JobPart, QueuePart, LivePart, PublishedOk, Performed;
    if NextStep(r).PerformStep? {
      NeverRejected(r);
    }
  }
}
