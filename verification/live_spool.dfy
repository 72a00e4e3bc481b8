/** Incremental writing of one capture into hidden staging: two RAW files and a timeline in sequence order. */
module LiveSpool {
  import opened Options
  import opened RchBytes
  import opened CapturedJobs

  datatype LiveError = Closed | NotContiguous | WrongTimelineSequence | WrongByteCount

  datatype Live = Live(
    raw: Copies,
    timeline: seq<Chunk>,
    pending: map<nat, Chunk>,
    skipped: set<nat>,
    next: nat,
    maximum: nat,
    closed: bool)

  const NEW_LIVE := Live(Copies([], []), [], map[], {}, 1, 0, false)

  function SkipNext(l: Live): Live {
    l.(skipped := l.skipped - {l.next}, next := l.next + 1)
  }

  function WriteNext(l: Live): Live
    requires l.next in l.pending
  {
    l.(timeline := l.timeline + [l.pending[l.next]], pending := l.pending - {l.next}, next := l.next + 1)
  }

  /** Writes every timeline event that is next in order and whose drain is known, or every one of them if forced. */
  function Flush(l: Live, force: bool): Live
    decreases l.maximum - l.next
  {
    if l.next > l.maximum then l
    else if l.next in l.skipped then Flush(SkipNext(l), force)
    else if l.next !in l.pending || (!force && l.pending[l.next].drain.None?) then l
    else Flush(WriteNext(l), force)
  }

  datatype Appended = Appended(live: Live, error: Option<LiveError>)

  /** A rejected event has already been written to its RAW file unless its sequence was wrong. */
  function LiveAppend(l: Live, sequence: nat, d: Direction, data: seq<byte>, chunk: Option<Chunk>): Appended {
    if l.closed then Appended(l, Some(Closed))
    else if sequence != l.maximum + 1 then Appended(l, Some(NotContiguous))
    else
      var w := l.(raw := l.raw.Extend(d, data), maximum := sequence);
      if chunk.None? then Appended(Flush(w.(skipped := w.skipped + {sequence}), false), None)
      else if chunk.value.sequence != sequence then Appended(w, Some(WrongTimelineSequence))
      else if chunk.value.byteCount != |data| then Appended(w, Some(WrongByteCount))
      else Appended(Flush(w.(pending := w.pending[sequence := chunk.value]), false), None)
  }

  function LiveDrain(l: Live, sequence: nat, drain: Drain): Live {
    if l.closed || sequence !in l.pending then l
    else Flush(l.(pending := l.pending[sequence := l.pending[sequence].(drain := Some(drain))]), false)
  }

  function SyncAndClose(l: Live): Live {
    if l.closed then l else Flush(l, true).(closed := true)
  }

  /** An event is accepted exactly if the capture is open, it is the next one, and its record, if it has one, is its own.
      A late or repeated event changes nothing; one with a wrong record has only reached its RAW file. */
  lemma AcceptedExactly(l: Live, sequence: nat, d: Direction, data: seq<byte>, chunk: Option<Chunk>)
    ensures var a := LiveAppend(l, sequence, d, data, chunk);
            && (a.error.None? <==>
                  !l.closed && sequence == l.maximum + 1
                  && (chunk.Some? ==> chunk.value.sequence == sequence && chunk.value.byteCount == |data|))
            && (l.closed || sequence != l.maximum + 1 ==> a.live == l)
            && (a.error.Some? && !l.closed && sequence == l.maximum + 1 ==>
                  a.live == l.(raw := l.raw.Extend(d, data), maximum := sequence))
  {
    hide Flush;
  }

  // ---------------------------------------------------------------- invariant

  predicate Ascending(timeline: seq<Chunk>, bound: nat) {
    && (forall i, k | 0 <= i < k < |timeline| :: timeline[i].sequence < timeline[k].sequence)
    && (forall i | 0 <= i < |timeline| :: timeline[i].sequence < bound)
  }

  /** Pending and skipped sequences split the range from next to maximum between them, and the written timeline
      is strictly ascending below next. */
  ghost predicate LiveInv(l: Live) {
    && 1 <= l.next <= l.maximum + 1
    && (forall s: nat :: s in l.pending || s in l.skipped <==> l.next <= s <= l.maximum)
    && (forall s: nat :: !(s in l.pending && s in l.skipped))
    && (forall s | s in l.pending :: l.pending[s].sequence == s)
    && Ascending(l.timeline, l.next)
  }

  /** The pending events from sequence s to maximum in sequence order. */
  function Ordered(pending: map<nat, Chunk>, s: nat, maximum: nat): seq<Chunk>
    decreases maximum - s
  {
    if s > maximum then []
    else (if s in pending then [pending[s]] else []) + Ordered(pending, s + 1, maximum)
  }

  /** The timeline once everything pending is written. */
  function Eventual(l: Live): seq<Chunk> {
    l.timeline + Ordered(l.pending, l.next, l.maximum)
  }

  lemma {:induction false} OrderedIsPending(l: Live, s: nat, i: nat)
    requires LiveInv(l) && l.next <= s && i < |Ordered(l.pending, s, l.maximum)|
    ensures Ordered(l.pending, s, l.maximum)[i].sequence in l.pending
    decreases l.maximum - s
  {
    if s !in l.pending {
      assert Ordered(l.pending, s, l.maximum) == Ordered(l.pending, s + 1, l.maximum);
      OrderedIsPending(l, s + 1, i);
    } else if i > 0 {
      OrderedIsPending(l, s + 1, i - 1);
    }
  }

  /** A record that is not written yet is pending under its own sequence. */
  lemma UnwrittenIsPending(l: Live, k: nat)
    requires LiveInv(l) && |l.timeline| <= k < |Eventual(l)|
    ensures Eventual(l)[k].sequence in l.pending
  {
    assert Eventual(l)[k] == Ordered(l.pending, l.next, l.maximum)[k - |l.timeline|];
    OrderedIsPending(l, l.next, k - |l.timeline|);
  }

  lemma {:induction false} OrderedSame(p: map<nat, Chunk>, q: map<nat, Chunk>, s: nat, maximum: nat)
    requires forall k | s <= k <= maximum :: (k in p <==> k in q) && (k in p ==> p[k] == q[k])
    ensures Ordered(p, s, maximum) == Ordered(q, s, maximum)
    decreases maximum - s
  {
    if s <= maximum {
      OrderedSame(p, q, s + 1, maximum);
    }
  }

  lemma {:induction false} OrderedExtend(p: map<nat, Chunk>, q: map<nat, Chunk>, s: nat, maximum: nat)
    requires s <= maximum + 1
    requires forall k | s <= k <= maximum :: (k in p <==> k in q) && (k in p ==> p[k] == q[k])
    ensures Ordered(q, s, maximum + 1) == Ordered(p, s, maximum) + if maximum + 1 in q then [q[maximum + 1]] else []
    decreases maximum - s
  {
    if s <= maximum {
      OrderedExtend(p, q, s + 1, maximum);
    } else {
      assert Ordered(q, maximum + 2, maximum + 1) == [];
    }
  }

  lemma SkipKeeps(l: Live)
    requires LiveInv(l) && l.next in l.skipped
    ensures LiveInv(SkipNext(l)) && Eventual(SkipNext(l)) == Eventual(l)
  {
  }

  lemma WriteKeeps(l: Live)
    requires LiveInv(l) && l.next in l.pending
    ensures LiveInv(WriteNext(l)) && Eventual(WriteNext(l)) == Eventual(l)
  {
    OrderedSame(l.pending, WriteNext(l).pending, l.next + 1, l.maximum);
  }

  /** Flushing writes in order: it keeps the invariant, loses and repeats nothing, and a forced one leaves
      nothing behind. */
  lemma {:induction false} FlushKeeps(l: Live, force: bool)
    requires LiveInv(l)
    ensures LiveInv(Flush(l, force)) && Eventual(Flush(l, force)) == Eventual(l)
    ensures Flush(l, force).raw == l.raw && Flush(l, force).maximum == l.maximum
    ensures Flush(l, force).closed == l.closed
    ensures force ==> Flush(l, force).next == l.maximum + 1
    decreases l.maximum - l.next
  {
    hide Eventual, Ascending;
    if l.next <= l.maximum {
      if l.next in l.skipped {
        SkipKeeps(l);
        FlushKeeps(SkipNext(l), force);
      } else if force || l.pending[l.next].drain.Some? {
        WriteKeeps(l);
        FlushKeeps(WriteNext(l), force);
      }
    }
  }

  /** Only what was pending with a known drain is written without force. */
  lemma {:induction false} FlushWritesDrained(l: Live)
    requires LiveInv(l)
    ensures l.timeline <= Flush(l, false).timeline
    ensures forall i | |l.timeline| <= i < |Flush(l, false).timeline| :: Flush(l, false).timeline[i].drain.Some?
    decreases l.maximum - l.next
  {
    if l.next <= l.maximum {
      if l.next in l.skipped {
        SkipKeeps(l);
        FlushWritesDrained(SkipNext(l));
      } else if l.pending[l.next].drain.Some? {
        WriteKeeps(l);
        FlushWritesDrained(WriteNext(l));
      }
    }
  }

  /** An accepted event adds its bytes to its direction and its record at the end of the timeline to come. */
  lemma AppendKeeps(l: Live, sequence: nat, d: Direction, data: seq<byte>, chunk: Option<Chunk>)
    requires LiveInv(l) && !l.closed && sequence == l.maximum + 1
    requires chunk.Some? ==> chunk.value.sequence == sequence && chunk.value.byteCount == |data|
    ensures var r := LiveAppend(l, sequence, d, data, chunk);
            && r.error == None && LiveInv(r.live) && !r.live.closed
            && r.live.raw == l.raw.Extend(d, data) && r.live.maximum == sequence
            && Eventual(r.live) == Eventual(l) + if chunk.Some? then [chunk.value] else []
  {
    var w := l.(raw := l.raw.Extend(d, data), maximum := sequence);
    var p := if chunk.None? then w.(skipped := w.skipped + {sequence}) else w.(pending := w.pending[sequence := chunk.value]);
    OrderedExtend(l.pending, p.pending, l.next, l.maximum);
    FlushKeeps(p, false);
  }

  /** What a drain mark does to one record. */
  function Redrained(c: Chunk, l: Live, sequence: nat, drain: Drain): Chunk {
    if c.sequence == sequence && sequence in l.pending then c.(drain := Some(drain)) else c
  }

  lemma {:induction false} OrderedRedrained(l: Live, s: nat, sequence: nat, drain: Drain)
    requires LiveInv(l) && l.next <= s && sequence in l.pending
    ensures var p, q := Ordered(l.pending, s, l.maximum),
                        Ordered(l.pending[sequence := l.pending[sequence].(drain := Some(drain))], s, l.maximum);
            |p| == |q| && forall i | 0 <= i < |p| :: q[i] == Redrained(p[i], l, sequence, drain)
    decreases l.maximum - s
  {
    if s <= l.maximum {
      OrderedRedrained(l, s + 1, sequence, drain);
    }
  }

  /** A drain mark completes the record it names if that is still pending and changes nothing else. */
  lemma DrainKeeps(l: Live, sequence: nat, drain: Drain)
    requires LiveInv(l) && !l.closed
    ensures var r := LiveDrain(l, sequence, drain);
            && LiveInv(r) && !r.closed && r.raw == l.raw && r.maximum == l.maximum
            && |Eventual(r)| == |Eventual(l)|
            && (forall i | 0 <= i < |Eventual(l)| :: Eventual(r)[i] == Redrained(Eventual(l)[i], l, sequence, drain))
  {
    if sequence in l.pending {
      OrderedRedrained(l, l.next, sequence, drain);
      FlushKeeps(l.(pending := l.pending[sequence := l.pending[sequence].(drain := Some(drain))]), false);
    }
  }

  /** After closing, the timeline file holds every event once in order and nothing is pending or skipped. */
  lemma CloseWritesEverything(l: Live)
    requires LiveInv(l) && !l.closed
    ensures var r := SyncAndClose(l);
            && r.closed && r.raw == l.raw && r.timeline == Eventual(l)
            && r.pending == map[] && r.skipped == {}
            && Ascending(r.timeline, l.maximum + 1)
  {
    FlushKeeps(l, true);
    var f := Flush(l, true);
    assert forall s: nat :: s !in f.pending && s !in f.skipped;
    assert f.pending == map[];
  }

  // ---------------------------------------------------------------- whole captures

  datatype LiveOp =
    | AppendOp(direction: Direction, data: seq<byte>, chunk: Option<Chunk>)
    | DrainOp(sequence: nat, drain: Drain)

  /** The operations of a recorder: contiguous events with matching records, and drain marks in any order. */
  predicate Ordinary(ops: seq<LiveOp>, maximum: nat)
  {
    ops == [] ||
    var rest := ops[1..];
    match ops[0]
    case AppendOp(_, data, chunk) =>
      (chunk.Some? ==> chunk.value.sequence == maximum + 1 && chunk.value.byteCount == |data|) && Ordinary(rest, maximum + 1)
    case DrainOp(_, _) => Ordinary(rest, maximum)
  }

  function Perform(l: Live, op: LiveOp): Live {
    match op
    case AppendOp(d, data, chunk) => LiveAppend(l, l.maximum + 1, d, data, chunk).live
    case DrainOp(s, drain) => LiveDrain(l, s, drain)
  }

  function PerformAll(l: Live, ops: seq<LiveOp>): Live
    decreases |ops|
  {
    if ops == [] then l else PerformAll(Perform(l, ops[0]), ops[1..])
  }

  /** The records of the retained events, without their drain marks. */
  function RetainedRecords(ops: seq<LiveOp>): seq<Chunk> {
    if ops == [] then []
    else (if ops[0].AppendOp? && ops[0].chunk.Some? then [ops[0].chunk.value.(drain := None)] else []) + RetainedRecords(ops[1..])
  }

  function Received(ops: seq<LiveOp>, d: Direction): seq<byte> {
    if ops == [] then []
    else (if ops[0].AppendOp? && ops[0].direction == d then ops[0].data else []) + Received(ops[1..], d)
  }

  function Undrained(chunks: seq<Chunk>): (r: seq<Chunk>)
    ensures |r| == |chunks|
  {
    seq(|chunks|, i requires 0 <= i < |chunks| => chunks[i].(drain := None))
  }

  lemma PerformKeeps(l: Live, op: LiveOp)
    requires LiveInv(l) && !l.closed && Ordinary([op], l.maximum)
    ensures var r := Perform(l, op);
            && LiveInv(r) && !r.closed
            && r.maximum == l.maximum + (if op.AppendOp? then 1 else 0)
            && (forall d: Direction :: r.raw.Of(d) == l.raw.Of(d) + Received([op], d))
            && Undrained(Eventual(r)) == Undrained(Eventual(l)) + RetainedRecords([op])
  {
    hide LiveInv, Flush;
    match op
    case AppendOp(d, data, chunk) =>
      AppendKeeps(l, l.maximum + 1, d, data, chunk);
    case DrainOp(s, drain) =>
      DrainKeeps(l, s, drain);
  }

  lemma HeadFirst(ops: seq<LiveOp>)
    requires ops != []
    ensures RetainedRecords(ops) == RetainedRecords([ops[0]]) + RetainedRecords(ops[1..])
    ensures forall d: Direction :: Received(ops, d) == Received([ops[0]], d) + Received(ops[1..], d)
  {
    assert [ops[0]][1..] == [];
  }

  lemma {:induction false} PerformAllKeeps(l: Live, ops: seq<LiveOp>)
    requires LiveInv(l) && !l.closed && Ordinary(ops, l.maximum)
    ensures var r := PerformAll(l, ops);
            && LiveInv(r) && !r.closed
            && (forall d: Direction :: r.raw.Of(d) == l.raw.Of(d) + Received(ops, d))
            && Undrained(Eventual(r)) == Undrained(Eventual(l)) + RetainedRecords(ops)
    decreases |ops|
  {
    hide LiveInv, Eventual, Perform, Undrained;
    if ops != [] {
      PerformKeeps(l, ops[0]);
      HeadFirst(ops);
      PerformAllKeeps(Perform(l, ops[0]), ops[1..]);
    }
  }

  /** For every order of drain marks the closed capture holds exactly the received bytes of each direction and
      every retained event once, in strictly increasing sequence order. */
  lemma EveryEventOnceInOrder(ops: seq<LiveOp>)
    requires Ordinary(ops, 0)
    ensures var r := SyncAndClose(PerformAll(NEW_LIVE, ops));
            && Undrained(r.timeline) == RetainedRecords(ops)
            && (forall i, k | 0 <= i < k < |r.timeline| :: r.timeline[i].sequence < r.timeline[k].sequence)
            && (forall d: Direction :: r.raw.Of(d) == Received(ops, d))
            && r.pending == map[] && r.skipped == {}
  {
    PerformAllKeeps(NEW_LIVE, ops);
    CloseWritesEverything(PerformAll(NEW_LIVE, ops));
  }
}
