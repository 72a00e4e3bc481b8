/** The buffered scanner refines the reference scanner for every way of cutting the stream: each step stays in step with
    the reference, or jumps past the unfinished header at which the reference ends. */
module FramingRefinement {
  import opened RchBytes
  import opened FramingSpec

  /** c has seen a prefix of the stream t. */
  predicate View(t: seq<byte>, c: Core) {
    && c.offset + |c.pending| <= |t|
    && c.pending == t[c.offset..c.offset + |c.pending|]
  }

  /** The reference scan passes through c.offset with exactly the events c has emitted. */
  ghost predicate InStep(m: nat, t: seq<byte>, c: Core, afterBadHeader: bool)
    requires c.offset <= |t|
  {
    var rest := Reference(m, t, c.offset, afterBadHeader);
    Reference(m, t, 0, false) == Outcome(Events(c.ledger) + rest.events, rest.end, rest.afterBadHeader)
  }

  /** The reference scan ends at an STX whose header the stream never completes. */
  predicate EndsInHeader(m: nat, t: seq<byte>) {
    var r := Reference(m, t, 0, false);
    r.end < |t| < r.end + 6 && t[r.end] == STX
  }

  /** Acknowledgements that lie behind the unfinished header at q. */
  predicate LateAcks(t: seq<byte>, q: nat, extra: seq<Entry>) {
    forall i | 0 <= i < |extra| ::
      extra[i].AckAt? && q < extra[i].offset < |t| && t[extra[i].offset] == ACK
  }

  /** c has jumped over the unfinished header at which the reference scan ends. */
  ghost predicate Overrun(m: nat, t: seq<byte>, c: Core) {
    var r := Reference(m, t, 0, false);
    && EndsInHeader(m, t)
    && r.afterBadHeader
    && r.end < c.offset
    && r.events <= Events(c.ledger)
    && LateAcks(t, r.end, Events(c.ledger)[|r.events|..])
  }

  ghost predicate Follows(m: nat, t: seq<byte>, c: Core) {
    && View(t, c)
    && ((exists a :: InStep(m, t, c, a)) || Overrun(m, t, c))
  }

  // ---------------------------------------------------------------- jumps

  lemma ClassifyStable(m: nat, t: seq<byte>, c: Core)
    requires View(t, c) && c.pending != []
    ensures var v := Classify(m, c.pending, 0);
            v.ShortHeader? || v.ShortFrame? || Classify(m, t, c.offset) == v
  {
    forall i | 0 <= i < |c.pending| ensures c.pending[i] == t[c.offset + i] {}
    var s := c.pending;
    if |s| >= 6 {
      assert HeaderDigits(s, 0) <==> HeaderDigits(t, c.offset) by {
        forall i | c.offset < i < c.offset + 6 ensures t[i] == s[i - c.offset] {}
      }
    }
  }

  /** No control byte in p..q: the reference scan just walks over the range. */
  lemma {:induction false} WalkUncontrolled(m: nat, t: seq<byte>, p: nat, q: nat, a: bool)
    requires p <= q <= |t| && forall i | p <= i < q :: !IsControl(t[i])
    ensures Reference(m, t, p, a) == Reference(m, t, q, a)
    decreases q - p
  {
    if p < q {
      WalkUncontrolled(m, t, p + 1, q, a);
    }
  }

  /** Neither an ACK nor an STX whose header can still become decimal. */
  predicate Hopeless(t: seq<byte>, i: nat)
    requires i < |t|
  {
    && t[i] != ACK
    && (t[i] == STX ==> exists k | i < k < i + 6 && k < |t| :: !IsDigit(t[k]))
  }

  /** Over hopeless positions the reference scan either reaches q without an event or ends on an STX in
      the last five bytes of the stream. */
  lemma {:induction false} WalkHopeless(m: nat, t: seq<byte>, p: nat, q: nat)
    requires p <= q <= |t| && forall i | p <= i < q :: Hopeless(t, i)
    ensures var r := Reference(m, t, p, true);
            || r == Reference(m, t, q, true)
            || (p <= r.end < q && r.events == [] && r.afterBadHeader && |t| < r.end + 6 && t[r.end] == STX)
    decreases q - p
  {
    if p < q {
      assert Hopeless(t, p);
      WalkHopeless(m, t, p + 1, q);
    }
  }

  /** A malformed-header jump skips hopeless positions only. */
  lemma JumpIsHopeless(t: seq<byte>, c: Core)
    requires View(t, c) && c.pending != []
    ensures forall i | c.offset < i < c.offset + NextPlausible(c.pending, 1) :: Hopeless(t, i)
  {
    var s := c.pending;
    var j := NextPlausible(s, 1);
    forall i | c.offset < i < c.offset + j ensures Hopeless(t, i) {
      var x := i - c.offset;
      assert !Plausible(s, x) && t[i] == s[x];
      if s[x] == STX {
        if x + 6 <= |s| {
          var k :| x < k < x + 6 && !IsDigit(s[k]);
          assert t[c.offset + k] == s[k];
        } else {
          assert j < |s|;
          assert !IsDigit(s[j]) && t[c.offset + j] == s[j];
        }
      }
    }
  }

  // ---------------------------------------------------------------- one step

  lemma AdvanceView(m: nat, t: seq<byte>, c: Core)
    requires View(t, c) && CanAdvance(m, c)
    ensures View(t, Advance(m, c))
  {
    var n := NextEntry(m, c).Width();
    assert c.pending[n..] == t[c.offset + n..c.offset + |c.pending|];
  }

  lemma AdvanceEvents(m: nat, c: Core)
    requires CanAdvance(m, c)
    ensures var e := NextEntry(m, c);
            Events(Advance(m, c).ledger) == Events(c.ledger) + if e.Gap? then [] else [e]
  {
    EventsAppend(c.ledger, NextEntry(m, c));
  }

  /** The reference scan takes the same event. */
  lemma ReferenceTakes(m: nat, t: seq<byte>, c: Core, a: bool)
    requires View(t, c) && CanAdvance(m, c) && !NextEntry(m, c).Gap?
    ensures var e := NextEntry(m, c);
            && c.offset + e.Width() <= |t|
            && Reference(m, t, c.offset, a) == Reference(m, t, c.offset + e.Width(), false).After(e)
  {
    var e := NextEntry(m, c);
    ClassifyStable(m, t, c);
    assert c.pending[..e.Width()] == t[c.offset..c.offset + e.Width()];
  }

  /** Emitting the event the reference emits keeps the two scans in step. */
  lemma EmitInStep(m: nat, t: seq<byte>, c: Core, a: bool, e: Entry, d: Core)
    requires c.offset <= |t| && d.offset <= |t| && InStep(m, t, c, a)
    requires Reference(m, t, c.offset, a) == Reference(m, t, d.offset, false).After(e)
    requires Events(d.ledger) == Events(c.ledger) + [e]
    ensures InStep(m, t, d, false)
  {
    hide Reference, Events;
    var rest := Reference(m, t, d.offset, false);
    assert Events(c.ledger) + ([e] + rest.events) == (Events(c.ledger) + [e]) + rest.events;
  }

  lemma TakeInStep(m: nat, t: seq<byte>, c: Core, a: bool)
    requires View(t, c) && CanAdvance(m, c) && InStep(m, t, c, a) && !NextEntry(m, c).Gap?
    ensures View(t, Advance(m, c)) && InStep(m, t, Advance(m, c), false)
  {
    hide Classify, NextEntry, Reference, Events;
    AdvanceView(m, t, c);
    AdvanceEvents(m, c);
    ReferenceTakes(m, t, c, a);
    EmitInStep(m, t, c, a, NextEntry(m, c), Advance(m, c));
  }

  /** Skipping to the next control byte loses nothing. */
  lemma ReferenceSkips(m: nat, t: seq<byte>, c: Core, a: bool)
    requires View(t, c) && CanAdvance(m, c) && NextEntry(m, c).Gap?
    requires !Classify(m, c.pending, 0).BadHeader?
    ensures var next := c.offset + NextEntry(m, c).Width();
            && next <= |t|
            && Reference(m, t, c.offset, a) == Reference(m, t, next, Classify(m, c.pending, 0).Unframed? && a)
  {
    var next := c.offset + NextEntry(m, c).Width();
    ClassifyStable(m, t, c);
    forall i | c.offset + 1 <= i < next ensures !IsControl(t[i]) {
      assert t[i] == c.pending[i - c.offset];
    }
    WalkUncontrolled(m, t, c.offset + 1, next, Classify(m, c.pending, 0).Unframed? && a);
  }

  /** A malformed header is skipped up to a position where the reference scan arrives too, unless that
      scan ends on the way. */
  lemma ReferenceJumps(m: nat, t: seq<byte>, c: Core, a: bool)
    requires View(t, c) && CanAdvance(m, c) && Classify(m, c.pending, 0).BadHeader?
    ensures var next := c.offset + NextEntry(m, c).Width();
            && next <= |t|
            && var r := Reference(m, t, c.offset, a);
            || r == Reference(m, t, next, true)
            || (r.end < next && r.events == [] && r.afterBadHeader && r.end < |t| < r.end + 6 && t[r.end] == STX)
  {
    var next := c.offset + NextEntry(m, c).Width();
    ClassifyStable(m, t, c);
    JumpIsHopeless(t, c);
    WalkHopeless(m, t, c.offset + 1, next);
  }

  /** Moving on silently keeps the two scans in step. */
  lemma SkipInStep(m: nat, t: seq<byte>, c: Core, a: bool, d: Core, b: bool)
    requires c.offset <= |t| && d.offset <= |t| && InStep(m, t, c, a)
    requires Reference(m, t, c.offset, a) == Reference(m, t, d.offset, b)
    requires Events(d.ledger) == Events(c.ledger)
    ensures InStep(m, t, d, b)
  {
    hide Reference, Events;
  }

  /** Jumping past the end of the reference scan. */
  lemma JumpOverruns(m: nat, t: seq<byte>, c: Core, a: bool, d: Core)
    requires c.offset <= |t| && InStep(m, t, c, a)
    requires Events(d.ledger) == Events(c.ledger)
    requires var r := Reference(m, t, c.offset, a);
             && r.end < d.offset && r.events == [] && r.afterBadHeader
             && r.end < |t| < r.end + 6 && t[r.end] == STX
    ensures Overrun(m, t, d) && Events(d.ledger) == ReferenceEvents(m, t)
  {
    hide Reference, Events;
    assert Events(d.ledger)[|ReferenceEvents(m, t)|..] == [];
  }

  /** A step taken in step with the reference either stays in step or overruns an unfinished header. */
  lemma AdvanceInStep(m: nat, t: seq<byte>, c: Core, a: bool)
    requires View(t, c) && CanAdvance(m, c) && InStep(m, t, c, a)
    ensures var d := Advance(m, c); var v := Classify(m, c.pending, 0);
            && View(t, d)
            && (InStep(m, t, d, (v.Unframed? && a) || v.BadHeader?)
                || (v.BadHeader? && Overrun(m, t, d) && Events(d.ledger) == ReferenceEvents(m, t)))
  {
    hide Classify, NextEntry, Reference, Events, InStep, Overrun, ReferenceEvents, View, CanAdvance;
    var d := Advance(m, c);
    var v := Classify(m, c.pending, 0);
    if !NextEntry(m, c).Gap? {
      TakeInStep(m, t, c, a);
    } else {
      AdvanceView(m, t, c);
      AdvanceEvents(m, c);
      assert Events(d.ledger) == Events(c.ledger);
      if v.BadHeader? {
        ReferenceJumps(m, t, c, a);
        if Reference(m, t, c.offset, a) == Reference(m, t, d.offset, true) {
          SkipInStep(m, t, c, a, d, true);
        } else {
          JumpOverruns(m, t, c, a, d);
        }
      } else {
        ReferenceSkips(m, t, c, a);
        SkipInStep(m, t, c, a, d, v.Unframed? && a);
      }
    }
  }

  lemma LateAcksAppend(t: seq<byte>, q: nat, events: seq<Entry>, n: nat, e: Entry)
    requires n <= |events| && LateAcks(t, q, events[n..])
    requires e.AckAt? && q < e.offset < |t| && t[e.offset] == ACK
    ensures LateAcks(t, q, (events + [e])[n..])
  {
    assert (events + [e])[n..] == events[n..] + [e];
  }

  lemma AdvanceOverrun(m: nat, t: seq<byte>, c: Core)
    requires View(t, c) && CanAdvance(m, c) && Overrun(m, t, c)
    ensures Overrun(m, t, Advance(m, c))
  {
    var r := Reference(m, t, 0, false);
    var v := Classify(m, c.pending, 0);
    assert |c.pending| < 5 && c.pending[0] == t[c.offset];
    assert v.Acknowledge? || v.Unframed?;
    AdvanceEvents(m, c);
    if v.Acknowledge? {
      LateAcksAppend(t, r.end, Events(c.ledger), |r.events|, AckAt(c.offset));
    }
  }

  lemma AdvanceFollows(m: nat, t: seq<byte>, c: Core)
    requires Follows(m, t, c) && CanAdvance(m, c)
    ensures Follows(m, t, Advance(m, c))
  {
    if a :| InStep(m, t, c, a) {
      AdvanceInStep(m, t, c, a);
    } else {
      AdvanceView(m, t, c);
      AdvanceOverrun(m, t, c);
    }
  }

  // ---------------------------------------------------------------- whole runs

  lemma {:induction false} DrainFollows(m: nat, t: seq<byte>, c: Core)
    requires Follows(m, t, c)
    ensures Follows(m, t, Drain(m, c))
    decreases |c.pending|
  {
    if CanAdvance(m, c) {
      AdvanceFollows(m, t, c);
      DrainFollows(m, t, Advance(m, c));
    }
  }

  /** The bytes of t that c has not received yet start with chunk. */
  predicate Upcoming(t: seq<byte>, c: Core, chunk: seq<byte>) {
    var seen := c.offset + |c.pending|;
    seen + |chunk| <= |t| && chunk == t[seen..seen + |chunk|]
  }

  lemma ReceiveFollows(m: nat, t: seq<byte>, c: Core, more: seq<byte>)
    requires Follows(m, t, c) && Upcoming(t, c, more)
    ensures Follows(m, t, Receive(c, more))
  {
    var d := Receive(c, more);
    assert View(t, d);
    if a :| InStep(m, t, c, a) {
      assert InStep(m, t, d, a);
    } else {
      assert Overrun(m, t, d);
    }
  }

  lemma SliceFollows(m: nat, t: seq<byte>, c: Core, chunk: seq<byte>, count: nat)
    requires Follows(m, t, c) && count <= |chunk| && Upcoming(t, c, chunk)
    ensures var d := Drain(m, Receive(c, chunk[..count]));
            Follows(m, t, d) && Upcoming(t, d, chunk[count..])
  {
    hide Classify, Reference, InStep, Overrun;
    var seen := c.offset + |c.pending|;
    assert chunk[..count] == t[seen..seen + count];
    ReceiveFollows(m, t, c, chunk[..count]);
    DrainFollows(m, t, Receive(c, chunk[..count]));
  }

  lemma FeedUnfold(lim: Limits, c: Core, chunk: seq<byte>)
    requires lim.Valid() && HasRoom(lim, c) && chunk != []
    ensures var count := FeedCount(lim, c, chunk);
            var d := Drain(lim.maxDataLength, Receive(c, chunk[..count]));
            HasRoom(lim, d) && Feed(lim, c, chunk) == Feed(lim, d, chunk[count..])
  {
  }

  lemma {:induction false} FeedFollows(lim: Limits, t: seq<byte>, c: Core, chunk: seq<byte>)
    requires lim.Valid() && HasRoom(lim, c) && Follows(lim.maxDataLength, t, c) && Upcoming(t, c, chunk)
    ensures Follows(lim.maxDataLength, t, Feed(lim, c, chunk))
    decreases |chunk|
  {
    hide Classify, Reference, InStep, Overrun, View;
    if chunk != [] {
      var count := FeedCount(lim, c, chunk);
      var d := Drain(lim.maxDataLength, Receive(c, chunk[..count]));
      SliceFollows(lim.maxDataLength, t, c, chunk, count);
      FeedUnfold(lim, c, chunk);
      FeedFollows(lim, t, d, chunk[count..]);
    }
  }

  lemma {:induction false} FeedAllFollows(lim: Limits, t: seq<byte>, c: Core, chunks: seq<seq<byte>>)
    requires lim.Valid() && HasRoom(lim, c) && Follows(lim.maxDataLength, t, c)
    requires t[c.offset + |c.pending|..] == Flatten(chunks)
    ensures var r := FeedAll(lim, c, chunks);
            Follows(lim.maxDataLength, t, r) && r.offset + |r.pending| == |t|
    decreases |chunks|
  {
    if chunks != [] {
      var seen := c.offset + |c.pending|;
      assert t[seen..seen + |chunks[0]|] == chunks[0] by {
        assert t[seen..seen + |chunks[0]|] == t[seen..][..|chunks[0]|];
      }
      FeedFollows(lim, t, c, chunks[0]);
      assert t[seen + |chunks[0]|..] == t[seen..][|chunks[0]|..] == Flatten(chunks[1..]);
      FeedAllFollows(lim, t, Feed(lim, c, chunks[0]), chunks[1..]);
    }
  }
}
