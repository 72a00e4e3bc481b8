/** What every step of the live recorder keeps: the job's flags stay exact while nothing is dropped, every command
    from the queue up to the one being performed fits the staging files written so far, the staging files hold a
    prefix of the stored bytes and, with the commands still to come, all of them, and a published job is
    complete as its manifest says. The lemmas follow the steps: record, mark, finalize, open, pop, perform,
    conclude, and the failures and crashes between them. */
module RecorderInvariant {
  import opened Options
  import opened RchBytes
  import opened CapturedJobs
  import opened LiveSpool
  import opened RecorderModel

  // ---------------------------------------------------------------- the job's flags

  /** The flags say exactly whether bytes were cut off and whether receive events are missing. */
  ghost predicate Honest(j: Job) {
    && j.captureComplete == (j.kept == j.seen)
    && j.timelineComplete == (forall d: Direction :: Bytes(j.chunks, d) == j.kept.Of(d))
  }

  function Described(chunks: seq<Chunk>): nat {
    |Bytes(chunks, ClientToRch)| + |Bytes(chunks, RchToClient)|
  }

  lemma CompleteBySize(j: Job)
    requires JobInv(j)
    ensures j.kept == j.seen <==> j.kept.Size() == j.seen.Size()
    ensures (forall d: Direction :: Bytes(j.chunks, d) == j.kept.Of(d)) <==> Described(j.chunks) == j.kept.Size()
    ensures j.kept.Size() <= j.seen.Size() && Described(j.chunks) <= j.kept.Size()
  {
    hide Bytes, Placed;
    assert j.kept.Of(ClientToRch) <= j.seen.Of(ClientToRch) && j.kept.Of(RchToClient) <= j.seen.Of(RchToClient);
    assert Bytes(j.chunks, ClientToRch) <= j.kept.Of(ClientToRch) && Bytes(j.chunks, RchToClient) <= j.kept.Of(RchToClient);
    if Described(j.chunks) == j.kept.Size() {
      forall d: Direction ensures Bytes(j.chunks, d) == j.kept.Of(d) {
        assert d == ClientToRch || d == RchToClient;
      }
    }
  }

  /** A chunk is retained as an event unless one of the two limits is reached for good. */
  ghost predicate Exhausted(j: Job) {
    j.kept.Size() == j.maxPayload || |j.chunks| == j.maxEvents
  }

  /** The effect of one recorded chunk in terms of sizes. */
  lemma AppendShape(j: Job, d: Direction, data: seq<byte>, sequence: nat, sessionOffset: nat, now: int)
    requires JobInv(j) && data != []
    ensures var r := AppendTo(j, d, data, sequence, sessionOffset, now);
            && JobInv(r)
            && r.kept.Of(d) == j.kept.Of(d) + Stored(j, data)
            && (forall e: Direction | e != d :: r.kept.Of(e) == j.kept.Of(e))
            && r.kept.Size() == j.kept.Size() + |Stored(j, data)| && r.seen.Size() == j.seen.Size() + |data|
            && (if AppendIndex(j, data).Some? then
                  && r.chunks == j.chunks + [NewChunk(j, d, data, sequence, sessionOffset, now)]
                  && Described(r.chunks) == Described(j.chunks) + |Stored(j, data)|
                else
                  && r.chunks == j.chunks
                  && Exhausted(r))
            && (Exhausted(j) ==> r.chunks == j.chunks && Exhausted(r))
  {
    hide Placed, Bytes;
    AppendKeepsInv(j, d, data, sequence, sessionOffset, now);
    if AppendIndex(j, data).Some? {
      PlacedAppend(j.chunks, NewChunk(j, d, data, sequence, sessionOffset, now));
    }
  }

  lemma AppendHonest(j: Job, d: Direction, data: seq<byte>, sequence: nat, sessionOffset: nat, now: int)
    requires JobInv(j) && Honest(j) && data != []
    ensures Honest(AppendTo(j, d, data, sequence, sessionOffset, now))
  {
    hide JobInv, Described, Bytes;
    var r := AppendTo(j, d, data, sequence, sessionOffset, now);
    AppendShape(j, d, data, sequence, sessionOffset, now);
    CompleteBySize(j);
    CompleteBySize(r);
  }

  lemma MarkHonest(j: Job, index: Option<nat>, drain: Drain)
    requires Honest(j)
    ensures Honest(MarkChunk(j, index, drain))
  {
    hide Bytes, Placed;
    DrainsDoNotMove(j.chunks, MarkChunk(j, index, drain).chunks);
  }

  // ---------------------------------------------------------------- commands

  function Commands(r: Recorder): seq<Command> {
    (if r.current.Some? then [r.current.value] else []) + r.queue
  }

  /** The bytes of direction d that the commands carry. */
  function Queued(cmds: seq<Command>, d: Direction): seq<byte> {
    if cmds == [] then []
    else (if cmds[0].AppendCommand? && cmds[0].direction == d then cmds[0].data else []) + Queued(cmds[1..], d)
  }

  function Appends(cmds: seq<Command>): nat {
    if cmds == [] then 0 else (if cmds[0].AppendCommand? then 1 else 0) + Appends(cmds[1..])
  }

  /** The event sequences carried by the commands count up from next. */
  predicate Contiguous(cmds: seq<Command>, next: nat) {
    cmds == [] ||
    if cmds[0].AppendCommand? then cmds[0].sequence == next && Contiguous(cmds[1..], next + 1)
    else Contiguous(cmds[1..], next)
  }

  lemma {:induction false} CommandsAppend(cmds: seq<Command>, c: Command, next: nat)
    requires Contiguous(cmds, next) && (c.AppendCommand? ==> c.sequence == next + Appends(cmds))
    ensures Contiguous(cmds + [c], next)
    ensures Appends(cmds + [c]) == Appends(cmds) + if c.AppendCommand? then 1 else 0
    ensures forall d: Direction ::
              Queued(cmds + [c], d) == Queued(cmds, d) + if c.AppendCommand? && c.direction == d then c.data else []
  {
    if cmds == [] {
      assert cmds + [c] == [c] && [c][1..] == [];
    } else {
      assert (cmds + [c])[1..] == cmds[1..] + [c];
      CommandsAppend(cmds[1..], c, if cmds[0].AppendCommand? then next + 1 else next);
    }
  }

  // ---------------------------------------------------------------- invariant

  /** The first |chunks| sequences are retained as events and no later one ever is. */
  function IndexOf(j: Job, sequence: nat): Option<nat> {
    if 1 <= sequence <= |j.chunks| then Some(sequence - 1) else None
  }

  ghost predicate JobPart(r: Recorder) {
    && JobInv(r.job)
    && (forall i | 0 <= i < |r.job.chunks| :: r.job.chunks[i].sequence == i + 1)
    && |r.job.chunks| <= r.sequence
    && (|r.job.chunks| < r.sequence ==> Exhausted(r.job))
    && (forall s | s in r.outstanding :: TokenOk(r, s))
    && (!r.degraded && !r.failed ==> Honest(r.job))
  }

  predicate TokenOk(r: Recorder, s: nat)
    requires s in r.outstanding
  {
    && 1 <= s <= r.sequence
    && r.outstanding[s].chunkIndex == IndexOf(r.job, s)
    && (s <= |r.job.chunks| ==> r.job.chunks[s - 1].drain.None?)
  }

  predicate CommandOk(r: Recorder, c: Command) {
    && 1 <= c.sequence <= r.sequence
    && match c
       case AppendCommand(s, _, data, index) =>
         index == IndexOf(r.job, s) && (s <= |r.job.chunks| ==> r.job.chunks[s - 1].byteCount == |data|)
       case DrainCommand(s, drain) =>
         s <= |r.job.chunks| ==> r.job.chunks[s - 1].drain == Some(drain)
  }

  ghost predicate QueuePart(r: Recorder) {
    var cmds := Commands(r);
    && Contiguous(cmds, r.live.maximum + 1)
    && r.live.maximum + Appends(cmds) <= r.sequence
    && (!r.degraded ==> r.live.maximum + Appends(cmds) == r.sequence)
    && (forall c | c in cmds :: CommandOk(r, c))
    && (forall d: Direction :: r.live.raw.Of(d) + Queued(cmds, d) <= r.job.kept.Of(d))
    && (!r.degraded ==> forall d: Direction :: r.live.raw.Of(d) + Queued(cmds, d) == r.job.kept.Of(d))
  }

  /** A staged record is the job's record, or lacks a drain mark that is still under way or was dropped. */
  predicate Reflects(r: Recorder, staged: Chunk, c: Chunk) {
    || staged == c
    || (c.drain.Some? && staged == c.(drain := None)
        && (r.degraded || DrainCommand(c.sequence, c.drain.value) in Commands(r)))
  }

  ghost predicate LivePart(r: Recorder) {
    var e := Eventual(r.live);
    && LiveInv(r.live) && !r.live.closed
    && |e| == (if r.live.maximum <= |r.job.chunks| then r.live.maximum else |r.job.chunks|)
    && (forall k | 0 <= k < |e| :: Reflects(r, e[k], r.job.chunks[k]))
    && (forall k | 0 <= k < |r.live.timeline| :: r.live.timeline[k].drain.Some?)
  }

  predicate Working(r: Recorder) {
    !r.failed && !r.crashed && !r.worker.Finished?
  }

  ghost predicate PublishedOk(r: Recorder) {
    r.published.Some? ==>
      var p := r.published.value;
      && r.finalizeRequested && r.worker.Finished?
      && p.raw == r.job.kept && p.timeline == r.job.chunks
      && (p.complete <==> r.job.kept == r.job.seen && forall d: Direction :: Bytes(r.job.chunks, d) == r.job.kept.Of(d))
  }

  /** The parts of the invariant that do not depend on the queue. */
  ghost predicate Outer(r: Recorder) {
    && (forall d: Direction :: r.live.raw.Of(d) <= r.job.kept.Of(d))
    && (r.finalizeRequested ==> r.closed && !r.active)
    && (r.active ==> !r.worker.Unstarted?)
    && (!r.active && !r.closed ==> r.worker.Unstarted?)
    && (!r.worker.Running? ==> r.current.None?)
    && (r.failed ==> r.worker.Finished?)
    && PublishedOk(r)
  }

  ghost predicate Inv(r: Recorder) {
    JobPart(r) && Outer(r) && (Working(r) ==> QueuePart(r) && LivePart(r))
  }

  // ---------------------------------------------------------------- recording

  lemma RecordTokens(r: Recorder, d: Direction, data: seq<byte>, now: int)
    requires JobPart(r) && data != []
    ensures var t := Remember(r, d, data, now); forall s | s in t.outstanding :: TokenOk(t, s)
  {
    hide JobInv, Honest, AppendTo, Exhausted, Stored, Described;
    AppendShape(r.job, d, data, r.sequence + 1, |r.job.seen.Of(d)|, now);
    var t := Remember(r, d, data, now);
    forall s | s in t.outstanding ensures TokenOk(t, s) {
      assert s != t.sequence ==> s in r.outstanding && TokenOk(r, s);
    }
  }

  lemma RecordJob(r: Recorder, d: Direction, data: seq<byte>, now: int)
    requires JobPart(r) && data != []
    ensures JobPart(Remember(r, d, data, now))
  {
    hide JobInv, Honest, AppendTo, Exhausted, Stored, Described, TokenOk;
    AppendShape(r.job, d, data, r.sequence + 1, |r.job.seen.Of(d)|, now);
    if !r.degraded && !r.failed {
      AppendHonest(r.job, d, data, r.sequence + 1, |r.job.seen.Of(d)|, now);
    }
    RecordTokens(r, d, data, now);
  }

  lemma RecordCommandsOk(r: Recorder, d: Direction, data: seq<byte>, now: int)
    requires JobPart(r) && data != []
    ensures var t := Remember(r, d, data, now);
            && (forall c :: CommandOk(r, c) ==> CommandOk(t, c))
            && CommandOk(t, AppendCommand(t.sequence, d, Stored(r.job, data), AppendIndex(r.job, data)))
            && r.job.chunks <= t.job.chunks
            && (r.job.chunks == t.job.chunks || |r.job.chunks| == r.sequence)
  {
    hide JobInv, Honest, AppendTo, Exhausted, Stored, Described;
    AppendShape(r.job, d, data, r.sequence + 1, |r.job.seen.Of(d)|, now);
  }

  /** Enqueueing keeps what is known of the commands, whether it succeeds, degrades or is skipped. */
  lemma EnqueueJob(r: Recorder, c: Command)
    requires JobPart(r)
    ensures JobPart(Enqueue(r, c))
  {
    hide Honest, Bytes, Placed;
    var t := Enqueue(r, c);
    forall s | s in t.outstanding ensures TokenOk(t, s) {
      assert TokenOk(r, s);
    }
  }

  lemma QueueLonger(r: Recorder, t: Recorder, c: Command)
    requires QueuePart(r) && !r.degraded && !t.degraded
    requires t.live == r.live && t.current == r.current && t.queue == r.queue + [c]
    requires t.sequence == r.sequence + (if c.AppendCommand? then 1 else 0) && (c.AppendCommand? ==> c.sequence == t.sequence)
    requires forall e: Direction ::
               t.job.kept.Of(e) == r.job.kept.Of(e) + if c.AppendCommand? && c.direction == e then c.data else []
    requires CommandOk(t, c) && forall b :: CommandOk(r, b) ==> CommandOk(t, b)
    ensures QueuePart(t)
  {
    hide Contiguous, Queued, Appends, CommandOk;
    CommandsAppend(Commands(r), c, r.live.maximum + 1);
    assert Commands(t) == Commands(r) + [c];
    forall e: Direction ensures t.live.raw.Of(e) + Queued(Commands(t), e) == t.job.kept.Of(e) {
      assert r.live.raw.Of(e) + Queued(Commands(r), e) == r.job.kept.Of(e);
    }
  }

  lemma QueueSame(r: Recorder, t: Recorder)
    requires QueuePart(r) && t.degraded
    requires t.live == r.live && t.current == r.current && t.queue == r.queue && r.sequence <= t.sequence
    requires forall e: Direction :: r.job.kept.Of(e) <= t.job.kept.Of(e)
    requires forall b :: CommandOk(r, b) ==> CommandOk(t, b)
    ensures QueuePart(t)
  {
    hide Contiguous, Queued, Appends, CommandOk;
    assert Commands(t) == Commands(r);
    forall e: Direction ensures t.live.raw.Of(e) + Queued(Commands(t), e) <= t.job.kept.Of(e) {
      assert r.live.raw.Of(e) + Queued(Commands(r), e) <= r.job.kept.Of(e);
    }
  }

  lemma EnqueueFrame(r: Recorder, c: Command)
    ensures var u := Enqueue(r, c);
            && u.live == r.live && u.worker == r.worker && u.current == r.current && u.published == r.published
            && u.active == r.active && u.closed == r.closed && u.finalizeRequested == r.finalizeRequested
            && u.job.kept == r.job.kept && u.job.chunks == r.job.chunks && u.sequence == r.sequence && Working(u) == Working(r)
            && u.failed == r.failed && (u.degraded ==> u.queue == r.queue)
            && (!u.degraded && !u.failed ==> !r.degraded && u.queue == r.queue + [c])
  {
  }

  /** A command that accounts for what the job just recorded joins the queue or is dropped. */
  lemma EnqueueQueue(r: Recorder, t: Recorder, c: Command)
    requires QueuePart(r) && !r.failed && !t.failed
    requires t.live == r.live && t.queue == r.queue && t.current == r.current && t.degraded == r.degraded
    requires t.sequence == r.sequence + (if c.AppendCommand? then 1 else 0) && (c.AppendCommand? ==> c.sequence == t.sequence)
    requires forall e: Direction ::
               t.job.kept.Of(e) == r.job.kept.Of(e) + if c.AppendCommand? && c.direction == e then c.data else []
    requires CommandOk(t, c) && forall b :: CommandOk(r, b) ==> CommandOk(t, b)
    ensures QueuePart(Enqueue(t, c))
  {
    hide QueuePart, Enqueue;
    var u := Enqueue(t, c);
    EnqueueFrame(t, c);
    assert forall b :: CommandOk(t, b) ==> CommandOk(u, b);
    if u.degraded {
      QueueSame(r, u);
    } else {
      QueueLonger(r, u, c);
    }
  }

  lemma SameCommands(r: Recorder, t: Recorder)
    requires t.queue == r.queue && t.current == r.current
    ensures Commands(t) == Commands(r)
  {
  }

  lemma EnqueueCommands(r: Recorder, c: Command)
    ensures forall b | b in Commands(r) :: b in Commands(Enqueue(r, c))
    ensures Enqueue(r, c).degraded || r.failed || c in Commands(Enqueue(r, c))
    ensures r.degraded ==> Enqueue(r, c).degraded
  {
  }

  /** Recording leaves the staged records valid: retained ones never change place. */
  lemma RecordLive(r: Recorder, t: Recorder, c: Command)
    requires LivePart(r) && r.live.maximum <= r.sequence
    requires t.live == r.live && t.queue == r.queue && t.current == r.current && t.degraded == r.degraded
    requires r.job.chunks <= t.job.chunks && (r.job.chunks == t.job.chunks || |r.job.chunks| == r.sequence)
    ensures LivePart(Enqueue(t, c))
  {
    hide LiveInv, Eventual, Enqueue, Commands;
    var u := Enqueue(t, c);
    EnqueueCommands(t, c);
    EnqueueFrame(t, c);
    assert Commands(t) == Commands(r) by { SameCommands(r, t); }
    forall k | 0 <= k < |Eventual(r.live)| ensures Reflects(u, Eventual(r.live)[k], u.job.chunks[k]) {
      assert Reflects(r, Eventual(r.live)[k], r.job.chunks[k]);
      assert u.job.chunks[k] == r.job.chunks[k];
    }
  }

  lemma RecordParts(r: Recorder, d: Direction, data: seq<byte>, now: int)
    requires JobPart(r) && QueuePart(r) && LivePart(r) && !r.failed && data != []
    ensures var t := Remember(r, d, data, now);
            var u := Enqueue(t, AppendCommand(t.sequence, d, Stored(r.job, data), AppendIndex(r.job, data)));
            QueuePart(u) && LivePart(u)
  {
    hide AppendTo, Stored, JobInv, Honest, Exhausted, Described, CommandOk, LivePart, Enqueue;
    var t := Remember(r, d, data, now);
    var c := AppendCommand(t.sequence, d, Stored(r.job, data), AppendIndex(r.job, data));
    RecordCommandsOk(r, d, data, now);
    AppendShape(r.job, d, data, t.sequence, |r.job.seen.Of(d)|, now);
    EnqueueQueue(r, t, c);
    RecordLive(r, t, c);
  }

  lemma StartedParts(r: Recorder)
    requires Inv(r) && !r.closed && !r.crashed
    ensures JobPart(Started(r)) && (Working(Started(r)) ==> QueuePart(Started(r)) && LivePart(Started(r)))
  {
    hide JobInv, Honest, LiveInv, Eventual, Exhausted, Contiguous, Queued, Appends;
    var s := Started(r);
    assert forall k | k in s.outstanding :: TokenOk(r, k) ==> TokenOk(s, k);
    if Working(s) {
      assert Commands(s) == Commands(r);
      assert forall c | c in Commands(s) :: CommandOk(r, c) ==> CommandOk(s, c);
      assert forall k | 0 <= k < |Eventual(s.live)| :: Reflects(r, Eventual(s.live)[k], r.job.chunks[k]) ==> Reflects(s, Eventual(s.live)[k], s.job.chunks[k]);
    }
  }

  /** A task of the relay that changes neither staging files nor worker keeps the rest while the job is open. */
  lemma OuterWhileOpen(r: Recorder, u: Recorder)
    requires Outer(r) && r.active && u.failed == r.failed
    requires u.live == r.live && u.worker == r.worker && u.current == r.current && u.published == r.published
    requires u.active && u.closed == r.closed && u.finalizeRequested == r.finalizeRequested
    requires forall e: Direction :: r.job.kept.Of(e) <= u.job.kept.Of(e)
    ensures Outer(u)
  {
    forall e: Direction ensures u.live.raw.Of(e) <= u.job.kept.Of(e) {
      assert r.live.raw.Of(e) <= r.job.kept.Of(e);
    }
  }

  lemma RecordGrows(r: Recorder, d: Direction, data: seq<byte>, now: int)
    requires JobInv(r.job) && data != []
    ensures forall e: Direction :: r.job.kept.Of(e) <= Remember(r, d, data, now).job.kept.Of(e)
  {
    hide JobInv, Described, Exhausted, AppendTo;
    AppendShape(r.job, d, data, r.sequence + 1, |r.job.seen.Of(d)|, now);
  }

  lemma RecordOpen(r: Recorder, d: Direction, data: seq<byte>, now: int)
    requires Inv(r) && r.active && data != []
    ensures var t := Remember(r, d, data, now);
            Inv(Enqueue(t, AppendCommand(t.sequence, d, Stored(r.job, data), AppendIndex(r.job, data))))
  {
    hide JobPart, QueuePart, LivePart, JobInv, AppendTo, Stored, AppendIndex, Eventual, Outer, Enqueue, PublishedOk;
    var t := Remember(r, d, data, now);
    var c := AppendCommand(t.sequence, d, Stored(r.job, data), AppendIndex(r.job, data));
    JobPartHasInv(r);
    RecordGrows(r, d, data, now);
    RecordJob(r, d, data, now);
    EnqueueJob(t, c);
    EnqueueFrame(t, c);
    OuterWhileOpen(r, Enqueue(t, c));
    if Working(r) {
      RecordParts(r, d, data, now);
    }
  }

  lemma RecordKeeps(r: Recorder, d: Direction, data: seq<byte>, now: int)
    requires Inv(r) && !r.crashed
    ensures Inv(Record(r, d, data, now))
  {
    hide JobPart, QueuePart, LivePart, JobInv, AppendTo, Stored, AppendIndex, Eventual, Enqueue;
    if data != [] && !r.closed {
      StartedParts(r);
      assert Outer(Started(r));
      RecordOpen(Started(r), d, data, now);
    }
  }

  lemma JobPartHasInv(r: Recorder)
    requires JobPart(r)
    ensures JobInv(r.job)
  {
  }

  // ---------------------------------------------------------------- drain marks

  function Marked(r: Recorder, s: nat, drain: Drain): Recorder
    requires s in r.outstanding
  {
    r.(outstanding := r.outstanding - {s}, job := MarkChunk(r.job, r.outstanding[s].chunkIndex, drain))
  }

  /** A mark touches only the drain field of the chunk it belongs to, which had none. */
  lemma MarkShape(r: Recorder, s: nat, drain: Drain)
    requires JobPart(r) && s in r.outstanding
    ensures var t := Marked(r, s, drain);
            && |t.job.chunks| == |r.job.chunks| && t.job.kept == r.job.kept
            && (forall i | 0 <= i < |r.job.chunks| ::
                  t.job.chunks[i] == if i == s - 1 then r.job.chunks[i].(drain := Some(drain)) else r.job.chunks[i])
            && 1 <= s <= r.sequence
            && (s <= |r.job.chunks| ==> r.job.chunks[s - 1].drain.None?)
  {
    hide JobInv, Honest, Exhausted;
    assert TokenOk(r, s);
  }

  lemma MarkJob(r: Recorder, s: nat, drain: Drain)
    requires JobPart(r) && s in r.outstanding
    ensures JobPart(Marked(r, s, drain))
  {
    hide Honest;
    var t := Marked(r, s, drain);
    assert JobInv(t.job) && (Honest(r.job) ==> Honest(t.job)) by {
      MarkKeepsInv(r.job, r.outstanding[s].chunkIndex, drain);
      if Honest(r.job) {
        MarkHonest(r.job, r.outstanding[s].chunkIndex, drain);
      }
    }
    hide JobInv;
    MarkShape(r, s, drain);
    forall k | k in t.outstanding ensures TokenOk(t, k) {
      assert TokenOk(r, k);
    }
  }

  lemma MarkCommandsOk(r: Recorder, s: nat, drain: Drain)
    requires JobPart(r) && s in r.outstanding
    ensures var t := Marked(r, s, drain);
            CommandOk(t, DrainCommand(s, drain)) && forall b :: CommandOk(r, b) ==> CommandOk(t, b)
  {
    hide JobPart, MarkChunk;
    MarkShape(r, s, drain);
  }

  /** The staged record of a marked chunk lacks the mark exactly as long as its command is under way. */
  lemma MarkLive(r: Recorder, s: nat, drain: Drain)
    requires JobPart(r) && LivePart(r) && s in r.outstanding && !r.failed
    ensures LivePart(Enqueue(Marked(r, s, drain), DrainCommand(s, drain)))
  {
    hide LiveInv, Eventual, Enqueue, Commands, JobInv, Honest, MarkChunk;
    var t := Marked(r, s, drain);
    var c := DrainCommand(s, drain);
    var u := Enqueue(t, c);
    MarkShape(r, s, drain);
    EnqueueCommands(t, c);
    EnqueueFrame(t, c);
    SameCommands(r, t);
    forall k | 0 <= k < |Eventual(r.live)| ensures Reflects(u, Eventual(r.live)[k], u.job.chunks[k]) {
      assert Reflects(r, Eventual(r.live)[k], r.job.chunks[k]);
      assert r.job.chunks[k].sequence == k + 1;
    }
  }

  lemma MarkOpen(r: Recorder, s: nat, drain: Drain)
    requires Inv(r) && r.active && s in r.outstanding
    ensures Inv(Enqueue(Marked(r, s, drain), DrainCommand(s, drain)))
  {
    hide JobPart, QueuePart, LivePart, JobInv, MarkChunk, Eventual, Outer, Enqueue, PublishedOk, CommandOk;
    var t := Marked(r, s, drain);
    var c := DrainCommand(s, drain);
    MarkShape(r, s, drain);
    MarkJob(r, s, drain);
    EnqueueJob(t, c);
    EnqueueFrame(t, c);
    OuterWhileOpen(r, Enqueue(t, c));
    MarkCommandsOk(r, s, drain);
    if Working(r) {
      EnqueueQueue(r, t, c);
      MarkLive(r, s, drain);
    }
  }

  /** Changes to fields that the invariant's parts do not read. */
  lemma SameParts(r: Recorder, t: Recorder)
    requires t.job == r.job && t.sequence == r.sequence && t.degraded == r.degraded && t.failed == r.failed
    requires t.outstanding.Keys <= r.outstanding.Keys && forall s | s in t.outstanding :: t.outstanding[s] == r.outstanding[s]
    ensures JobPart(r) ==> JobPart(t)
    ensures t.live == r.live && Commands(t) == Commands(r) ==> (QueuePart(r) ==> QueuePart(t)) && (LivePart(r) ==> LivePart(t))
  {
    hide JobInv, Honest, LiveInv, Eventual, Exhausted, Contiguous, Queued, Appends;
    if JobPart(r) {
      assert forall k | k in t.outstanding :: TokenOk(r, k) ==> TokenOk(t, k);
    }
    if t.live == r.live && Commands(t) == Commands(r) {
      assert forall c | c in Commands(t) :: CommandOk(r, c) ==> CommandOk(t, c);
      assert forall k | 0 <= k < |Eventual(t.live)| && k < |r.job.chunks| ::
          Reflects(r, Eventual(t.live)[k], r.job.chunks[k]) ==> Reflects(t, Eventual(t.live)[k], t.job.chunks[k]);
    }
  }

  lemma MarkKeeps(r: Recorder, s: nat, drain: Drain)
    requires Inv(r) && !r.crashed && s in r.outstanding
    ensures Inv(Mark(r, s, drain))
  {
    hide JobPart, QueuePart, LivePart, JobInv, MarkChunk, Eventual, Enqueue;
    if r.active {
      MarkOpen(r, s, drain);
    } else {
      SameParts(r, Mark(r, s, drain));
    }
  }

  // ---------------------------------------------------------------- worker

  lemma FinalizeKeeps(r: Recorder)
    requires Inv(r)
    ensures Inv(Finalize(r))
  {
    hide JobPart, QueuePart, LivePart, Bytes;
    SameParts(r, Finalize(r));
  }

  lemma OpenKeeps(r: Recorder)
    requires Inv(r) && r.worker.Opening?
    ensures Inv(r.(worker := Running))
  {
    hide JobPart, QueuePart, LivePart, Bytes;
    SameParts(r, r.(worker := Running));
  }

  lemma PopKeeps(r: Recorder)
    requires Inv(r) && Enabled(r, PopStep)
    ensures Inv(Pop(r))
  {
    hide JobPart, QueuePart, LivePart, Bytes;
    assert [r.queue[0]] + r.queue[1..] == r.queue;
    SameParts(r, Pop(r));
  }

  lemma CrashKeeps(r: Recorder, k: nat)
    requires Inv(r) && !r.crashed
    ensures Inv(r.(crashed := true, live := Interrupted(r, k)))
  {
    InterruptedIsPrefix(r, k);
    hide JobPart, Bytes, Interrupted;
    SameParts(r, r.(crashed := true, live := Interrupted(r, k)));
  }

  lemma QueuedHead(cmds: seq<Command>)
    requires cmds != [] && cmds[0].AppendCommand?
    ensures cmds[0].data <= Queued(cmds, cmds[0].direction)
  {
  }

  /** Bytes of an interrupted command are a prefix of what the job stored for that direction. */
  lemma InterruptedIsPrefix(r: Recorder, k: nat)
    requires Inv(r) && !r.crashed
    ensures forall d: Direction :: Interrupted(r, k).raw.Of(d) <= r.job.kept.Of(d)
  {
    hide JobPart, LivePart, PublishedOk, CommandOk, Contiguous, Queued;
    if r.current.Some? && r.current.value.AppendCommand? && k <= |r.current.value.data| {
      var c := r.current.value;
      QueuedHead(Commands(r));
      assert r.live.raw.Of(c.direction) + c.data[..k] <= r.live.raw.Of(c.direction) + Queued(Commands(r), c.direction);
      assert r.live.raw.Of(c.direction) + Queued(Commands(r), c.direction) <= r.job.kept.Of(c.direction);
    }
  }

  lemma FailKeeps(r: Recorder, left: Live)
    requires JobPart(r) && Outer(r) && !r.worker.Unstarted?
    requires forall d: Direction :: left.raw.Of(d) <= r.job.kept.Of(d)
    ensures Inv(Fail(r, left))
  {
    hide Placed, Bytes, Honest;
    var t := Fail(r, left);
    assert forall s | s in t.outstanding :: TokenOk(r, s) ==> TokenOk(t, s);
  }

  // ---------------------------------------------------------------- performing a command

  /** Staging after the current command, without its effect on staging itself. */
  lemma {:induction false} HeadGone(cmds: seq<Command>, next: nat)
    requires cmds != [] && Contiguous(cmds, next)
    ensures var n := if cmds[0].AppendCommand? then 1 else 0;
            && Contiguous(cmds[1..], next + n)
            && Appends(cmds) == n + Appends(cmds[1..])
            && (cmds[0].AppendCommand? ==> cmds[0].sequence == next)
            && (forall d: Direction ::
                  Queued(cmds, d) == (if cmds[0].AppendCommand? && cmds[0].direction == d then cmds[0].data else [])
                                     + Queued(cmds[1..], d))
  {
  }

  lemma AfterCurrent(r: Recorder)
    requires r.current.Some?
    ensures Commands(r) != [] && Commands(r)[0] == r.current.value && Commands(r)[1..] == r.queue
    ensures Commands(r.(current := None)) == r.queue
  {
  }

  /** The worker never meets a rejected event: the queue carries contiguous sequences with matching records. */
  lemma PerformedAppend(r: Recorder)
    requires JobPart(r) && QueuePart(r) && LivePart(r) && r.current.Some? && r.current.value.AppendCommand?
    ensures var c, p := r.current.value, Performed(r);
            && p.error == None && LiveInv(p.live) && !p.live.closed
            && p.live.maximum == r.live.maximum + 1 && c.sequence == p.live.maximum
            && p.live.raw == r.live.raw.Extend(c.direction, c.data)
            && Eventual(p.live) == Eventual(r.live) +
                                   if c.sequence <= |r.job.chunks| then [r.job.chunks[c.sequence - 1]] else []
  {
    hide JobInv, Honest, Exhausted, Eventual, LiveInv, Queued, LiveAppend;
    var c := r.current.value;
    AfterCurrent(r);
    HeadGone(Commands(r), r.live.maximum + 1);
    assert CommandOk(r, c);
    AppendKeeps(r.live, c.sequence, c.direction, c.data,
                if c.sequence <= |r.job.chunks| then Some(r.job.chunks[c.sequence - 1]) else None);
  }

  lemma CurrentOk(r: Recorder)
    requires QueuePart(r) && r.current.Some?
    ensures CommandOk(r, r.current.value)
  {
    hide CommandOk, Contiguous, Queued, Appends;
    AfterCurrent(r);
  }

  lemma RestOk(r: Recorder, t: Recorder)
    requires QueuePart(r) && r.current.Some? && t.queue == r.queue && t.current.None?
    requires t.job == r.job && t.sequence == r.sequence
    ensures forall b | b in Commands(t) :: CommandOk(t, b)
  {
    hide Contiguous, Queued, Appends;
    AfterCurrent(r);
    forall b | b in Commands(t) ensures CommandOk(t, b) {
      assert b in Commands(r) && CommandOk(r, b);
    }
  }

  lemma AppendPerformedQueue(r: Recorder)
    requires JobPart(r) && QueuePart(r) && LivePart(r) && r.current.Some? && r.current.value.AppendCommand?
    ensures QueuePart(PerformCurrent(r))
  {
    hide Eventual, LiveInv, Queued, Contiguous, Appends, LivePart, JobPart, Performed, CommandOk;
    var t := PerformCurrent(r);
    var c := r.current.value;
    PerformedAppend(r);
    AfterCurrent(r);
    HeadGone(Commands(r), r.live.maximum + 1);
    RestOk(r, t);
    forall d: Direction
      ensures t.live.raw.Of(d) + Queued(Commands(t), d) == r.live.raw.Of(d) + Queued(Commands(r), d)
    {
    }
  }

  lemma AppendPerformedLive(r: Recorder)
    requires JobPart(r) && QueuePart(r) && LivePart(r) && r.current.Some? && r.current.value.AppendCommand?
    ensures LivePart(PerformCurrent(r))
  {
    hide JobInv, Honest, Exhausted, Eventual, LiveInv, Queued, Contiguous, Appends, JobPart, QueuePart;
    var t := PerformCurrent(r);
    PerformedAppend(r);
    AfterCurrent(r);
    forall k | 0 <= k < |Eventual(t.live)| ensures Reflects(t, Eventual(t.live)[k], t.job.chunks[k]) {
      if k < |Eventual(r.live)| {
        assert Reflects(r, Eventual(r.live)[k], r.job.chunks[k]);
      }
    }
    WrittenAreDrained(r);
  }

  /** Everything written to the timeline before closing has its drain mark. */
  lemma WrittenAreDrained(r: Recorder)
    requires LiveInv(r.live) && (forall k | 0 <= k < |r.live.timeline| :: r.live.timeline[k].drain.Some?)
    requires r.current.Some? && Performed(r).error == None
    ensures var l := Performed(r).live; forall k | 0 <= k < |l.timeline| :: l.timeline[k].drain.Some?
  {
    match r.current.value
    case AppendCommand(s, d, data, index) =>
      var w := r.live.(raw := r.live.raw.Extend(d, data), maximum := s);
      var chunk := if index.Some? && index.value < |r.job.chunks| then Some(r.job.chunks[index.value]) else None;
      var p := if chunk.None? then w.(skipped := w.skipped + {s}) else w.(pending := w.pending[s := chunk.value]);
      FlushWritesDrained(p);
    case DrainCommand(s, drain) =>
      if !r.live.closed && s in r.live.pending {
        FlushWritesDrained(r.live.(pending := r.live.pending[s := r.live.pending[s].(drain := Some(drain))]));
      }
  }

  lemma WrittenFirst(l: Live, k: nat)
    requires k < |l.timeline|
    ensures k < |Eventual(l)| && Eventual(l)[k] == l.timeline[k]
  {
  }

  lemma DrainPerformedQueue(r: Recorder)
    requires QueuePart(r) && LiveInv(r.live) && !r.live.closed && r.current.Some? && r.current.value.DrainCommand?
    ensures QueuePart(PerformCurrent(r))
  {
    hide LiveInv, Queued, Contiguous, Appends, LiveDrain, CommandOk;
    var t := PerformCurrent(r);
    DrainKeeps(r.live, r.current.value.sequence, r.current.value.drain);
    AfterCurrent(r);
    HeadGone(Commands(r), r.live.maximum + 1);
    RestOk(r, t);
  }

  lemma SequenceAt(r: Recorder, k: nat)
    requires JobPart(r) && k < |r.job.chunks|
    ensures r.job.chunks[k].sequence == k + 1
  {
    hide JobInv, Honest, Exhausted;
  }

  /** The mark under way reaches its record if that is still pending; a written record already has it. */
  lemma DrainReflects(r: Recorder, k: nat)
    requires JobPart(r) && QueuePart(r) && LivePart(r) && r.current.Some? && r.current.value.DrainCommand?
    requires k < |Eventual(r.live)|
    ensures var c := r.current.value;
            Reflects(PerformCurrent(r), Redrained(Eventual(r.live)[k], r.live, c.sequence, c.drain), r.job.chunks[k])
  {
    hide JobPart, QueuePart, Eventual, LiveInv, LiveDrain;
    AfterCurrent(r);
    CurrentOk(r);
    assert Reflects(r, Eventual(r.live)[k], r.job.chunks[k]);
    SequenceAt(r, k);
    if k < |r.live.timeline| {
      WrittenFirst(r.live, k);
    } else {
      UnwrittenIsPending(r.live, k);
    }
  }

  lemma DrainPerformedLive(r: Recorder)
    requires JobPart(r) && QueuePart(r) && LivePart(r) && r.current.Some? && r.current.value.DrainCommand?
    ensures LivePart(PerformCurrent(r))
  {
    hide JobPart, QueuePart, Eventual, LiveInv, LiveDrain, Reflects, Redrained;
    var t := PerformCurrent(r);
    var c := r.current.value;
    DrainKeeps(r.live, c.sequence, c.drain);
    WrittenAreDrained(r);
    forall k | 0 <= k < |Eventual(t.live)| ensures Reflects(t, Eventual(t.live)[k], t.job.chunks[k]) {
      DrainReflects(r, k);
    }
  }

  lemma QueuedNothing(r: Recorder)
    requires QueuePart(r)
    ensures forall d: Direction :: r.live.raw.Of(d) <= r.job.kept.Of(d)
  {
    hide Contiguous, Appends, Queued, CommandOk;
    forall d: Direction ensures r.live.raw.Of(d) <= r.job.kept.Of(d) {
      assert r.live.raw.Of(d) + Queued(Commands(r), d) <= r.job.kept.Of(d);
    }
  }

  /** The worker's command always succeeds unless storage itself fails. */
  lemma NeverRejected(r: Recorder)
    requires Inv(r) && Busy(r)
    ensures Performed(r).error == None
    ensures Working(r)
  {
    hide JobPart, QueuePart, PublishedOk, LiveAppend, LiveDrain;
    if r.current.value.AppendCommand? {
      PerformedAppend(r);
    }
  }

  lemma LivePartOpen(r: Recorder)
    requires LivePart(r)
    ensures LiveInv(r.live) && !r.live.closed
  {
  }

  lemma PerformKeeps(r: Recorder)
    requires Inv(r) && Busy(r)
    ensures Inv(PerformCurrent(r))
  {
    hide JobPart, QueuePart, LivePart, Performed, PublishedOk;
    var t := PerformCurrent(r);
    NeverRejected(r);
    if r.current.value.AppendCommand? {
      AppendPerformedQueue(r);
      AppendPerformedLive(r);
    } else {
      LivePartOpen(r);
      DrainPerformedQueue(r);
      DrainPerformedLive(r);
    }
    QueuedNothing(t);
    SameParts(r, t);
    assert PublishedOk(t) by { PublishedFrame(r, t); }
  }

  lemma PublishedFrame(r: Recorder, t: Recorder)
    requires PublishedOk(r) && (r.worker.Finished? ==> t.worker.Finished?) && t.finalizeRequested == r.finalizeRequested
    requires t.job == r.job && t.published == r.published
    ensures PublishedOk(t)
  {
    hide Bytes;
  }

  /** With an empty queue and every event accepted, staging holds all stored bytes and every record, and the
      forced flush writes them. */
  lemma DrainedIsComplete(r: Recorder)
    requires Inv(r) && Drained(r) && !r.degraded && !r.failed
    ensures r.live.raw == r.job.kept && Eventual(r.live) == r.job.chunks
    ensures LiveInv(r.live) && !r.live.closed && Honest(r.job)
  {
    hide LiveInv, JobInv, Honest, Eventual, Exhausted;
    var cmds := Commands(r);
    assert cmds == [] && Appends(cmds) == 0;
    assert forall d: Direction :: r.live.raw.Of(d) + Queued(cmds, d) == r.job.kept.Of(d);
    assert r.live.raw.Of(ClientToRch) == r.job.kept.Of(ClientToRch);
    assert r.live.raw.Of(RchToClient) == r.job.kept.Of(RchToClient);
    forall k | 0 <= k < |r.job.chunks| ensures Eventual(r.live)[k] == r.job.chunks[k] {
      assert Reflects(r, Eventual(r.live)[k], r.job.chunks[k]);
    }
  }

  lemma PublishKeeps(r: Recorder)
    requires Inv(r) && Drained(r) && !r.degraded && !r.failed
    ensures Inv(Publish(r))
    ensures Publish(r).published.Some? && Publish(r).worker.Finished?
  {
    hide LiveInv, JobPart, QueuePart, LivePart, Bytes, Eventual, JobInv;
    DrainedIsComplete(r);
    CloseWritesEverything(r.live);
    SameParts(r, Publish(r));
  }

  lemma ConcludeKeeps(r: Recorder)
    requires Inv(r) && Drained(r)
    ensures Inv(Conclude(r))
  {
    hide JobPart, QueuePart, LivePart, Bytes, Publish;
    if r.degraded {
      SameParts(r, Conclude(r));
    } else {
      PublishKeeps(r);
    }
  }

  // ---------------------------------------------------------------- all steps

  lemma StepKeeps(r: Recorder, step: Step)
    requires Inv(r) && Enabled(r, step)
    ensures Inv(Apply(r, step))
  {
    hide JobPart, QueuePart, LivePart, PublishedOk, Record, Mark, PerformCurrent, Publish, Interrupted;
    match step
    case RecordStep(d, data, now) => RecordKeeps(r, d, data, now);
    case MarkStep(s, drain) => MarkKeeps(r, s, drain);
    case FinalizeStep => FinalizeKeeps(r);
    case OpenStep => OpenKeeps(r);
    case OpenFailsStep => FailKeeps(r, r.live);
    case PopStep => PopKeeps(r);
    case PerformStep => PerformKeeps(r);
    case PerformFailsStep(k) =>
      InterruptedIsPrefix(r, k);
      FailKeeps(r, Interrupted(r, k));
    case ConcludeStep => ConcludeKeeps(r);
    case PublicationFailsStep(renamed) =>
      if renamed {
        PublishKeeps(r);
        FailKeeps(Publish(r), Publish(r).live);
      } else {
        FailKeeps(r, r.live);
      }
    case CrashStep(k) => CrashKeeps(r, k);
  }

  lemma InitKeeps(maxPayload: nat, maxEvents: nat, capacity: nat)
    ensures Inv(NewRecorder(maxPayload, maxEvents, capacity))
  {
    var r := NewRecorder(maxPayload, maxEvents, capacity);
    assert Eventual(r.live) == [];
    assert Commands(r) == [];
  }

  lemma {:induction false} RunKeeps(states: seq<Recorder>, steps: seq<Step>, i: nat)
    requires Run(states, steps) && i < |states|
    ensures Inv(states[i])
  {
    hide Inv, Enabled, Apply;
    if i == 0 {
      InitKeeps(states[0].job.maxPayload, states[0].job.maxEvents, states[0].capacity);
    } else {
      RunKeeps(states, steps, i - 1);
      StepKeeps(states[i - 1], steps[i - 1]);
    }
  }
}
