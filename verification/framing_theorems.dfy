/** What every run of the framer guarantees, whatever the segmentation of the stream. */
module FramingTheorems {
  import opened RchBytes
  import opened FramingSpec
  import opened FramingRefinement

  // ---------------------------------------------------------------- tiling

  lemma AdvanceTiles(m: nat, c: Core)
    requires Tiles(c.ledger, 0, c.offset) && CanAdvance(m, c)
    ensures Tiles(Advance(m, c).ledger, 0, Advance(m, c).offset)
  {
    TilesAppend(c.ledger, 0, c.offset, NextEntry(m, c));
  }

  lemma {:induction false} DrainTiles(m: nat, c: Core)
    requires Tiles(c.ledger, 0, c.offset)
    ensures Tiles(Drain(m, c).ledger, 0, Drain(m, c).offset)
    decreases |c.pending|
  {
    if CanAdvance(m, c) {
      AdvanceTiles(m, c);
      DrainTiles(m, Advance(m, c));
    }
  }

  lemma {:induction false} FeedTiles(lim: Limits, c: Core, chunk: seq<byte>)
    requires lim.Valid() && HasRoom(lim, c) && Tiles(c.ledger, 0, c.offset)
    ensures Tiles(Feed(lim, c, chunk).ledger, 0, Feed(lim, c, chunk).offset)
    decreases |chunk|
  {
    if chunk != [] {
      var count := FeedCount(lim, c, chunk);
      DrainTiles(lim.maxDataLength, Receive(c, chunk[..count]));
      FeedTiles(lim, Drain(lim.maxDataLength, Receive(c, chunk[..count])), chunk[count..]);
    }
  }

  lemma {:induction false} FeedAllTiles(lim: Limits, c: Core, chunks: seq<seq<byte>>)
    requires lim.Valid() && HasRoom(lim, c) && Tiles(c.ledger, 0, c.offset)
    ensures Tiles(FeedAll(lim, c, chunks).ledger, 0, FeedAll(lim, c, chunks).offset)
    decreases |chunks|
  {
    if chunks != [] {
      FeedTiles(lim, c, chunks[0]);
      FeedAllTiles(lim, Feed(lim, c, chunks[0]), chunks[1..]);
    }
  }

  lemma FinishTiles(m: nat, c: Core)
    requires Tiles(c.ledger, 0, c.offset)
    ensures Tiles(Finish(m, c).ledger, 0, c.offset + |c.pending|)
  {
    DrainTiles(m, c);
    var d := Drain(m, c);
    if d.pending != [] {
      TilesAppend(d.ledger, 0, d.offset, Gap(d.offset, TruncatedFrame, |d.pending|));
    }
  }

  // ---------------------------------------------------------------- segmentation

  /** The stream ends in an unfinished header that contains an ACK, and the control byte scanned before
      that header is an STX with a malformed header. */
  predicate Ambiguous(m: nat, t: seq<byte>) {
    var r := Reference(m, t, 0, false);
    && EndsInHeader(m, t)
    && r.afterBadHeader
    && exists i | r.end < i < |t| :: t[i] == ACK
  }

  function Frames(events: seq<Entry>): seq<Entry> {
    if events == [] then []
    else
      var last := events[|events| - 1];
      Frames(events[..|events| - 1]) + if last.FrameAt? then [last] else []
  }

  lemma {:induction false} FramesOfLateAcks(t: seq<byte>, q: nat, events: seq<Entry>, extra: seq<Entry>)
    requires LateAcks(t, q, extra)
    ensures Frames(events + extra) == Frames(events)
    decreases |extra|
  {
    if extra == [] {
      assert events + extra == events;
    } else {
      var n := |extra| - 1;
      assert (events + extra)[..|events| + n] == events + extra[..n];
      FramesOfLateAcks(t, q, events, extra[..n]);
    }
  }

  lemma FinishKeepsEvents(m: nat, c: Core)
    requires !CanAdvance(m, c)
    ensures Events(Finish(m, c).ledger) == Events(c.ledger)
  {
    if c.pending != [] {
      EventsAppend(c.ledger, Gap(c.offset, TruncatedFrame, |c.pending|));
    }
  }

  /** A framer that saw the whole stream in step with the reference has emitted exactly its events. */
  lemma InStepAtEnd(m: nat, t: seq<byte>, c: Core, a: bool)
    requires View(t, c) && c.offset + |c.pending| == |t| && !CanAdvance(m, c) && InStep(m, t, c, a)
    ensures Events(c.ledger) == ReferenceEvents(m, t)
  {
    assert c.pending == t[c.offset..];
    if c.pending != [] {
      assert forall i | 0 <= i < |c.pending| :: c.pending[i] == t[c.offset + i];
      if |c.pending| >= 6 {
        assert HeaderDigits(t, c.offset) by {
          forall i | c.offset < i < c.offset + 6 ensures IsDigit(t[i]) {
            assert IsDigit(c.pending[i - c.offset]);
          }
        }
      }
      var v := Classify(m, t, c.offset);
      assert v.ShortHeader? || v.ShortFrame?;
    }
  }

  lemma EventsFollowReference(lim: Limits, chunks: seq<seq<byte>>)
    requires lim.Valid()
    ensures var t := Flatten(chunks); var m := lim.maxDataLength;
            var events := Events(FinalLedger(lim, chunks));
            var reference := ReferenceEvents(m, t);
            && reference <= events
            && LateAcks(t, Reference(m, t, 0, false).end, events[|reference|..])
            && (forall i | |reference| <= i < |events| :: |t| <= events[i].offset + 4)
            && Frames(events) == Frames(reference)
            && (!Ambiguous(m, t) ==> events == reference)
  {
    var t := Flatten(chunks);
    var m := lim.maxDataLength;
    var c := FeedAll(lim, EMPTY_CORE, chunks);
    assert InStep(m, t, EMPTY_CORE, false);
    assert t[0..] == t;
    FeedAllFollows(lim, t, EMPTY_CORE, chunks);
    FinishKeepsEvents(m, c);
    if a :| InStep(m, t, c, a) {
      InStepAtEnd(m, t, c, a);
    } else {
      OverrunAtEnd(m, t, c);
    }
  }

  lemma OverrunAtEnd(m: nat, t: seq<byte>, c: Core)
    requires Overrun(m, t, c)
    ensures var events := Events(c.ledger); var reference := ReferenceEvents(m, t);
            && (forall i | |reference| <= i < |events| :: |t| <= events[i].offset + 4)
            && Frames(events) == Frames(reference)
            && (!Ambiguous(m, t) ==> events == reference)
  {
    var events := Events(c.ledger);
    var r := Reference(m, t, 0, false);
    var extra := events[|r.events|..];
    assert events == r.events + extra;
    FramesOfLateAcks(t, r.end, r.events, extra);
    forall i | |r.events| <= i < |events| ensures |t| <= events[i].offset + 4 {
      assert events[i] == extra[i - |r.events|];
    }
    if extra != [] {
      assert t[extra[0].offset] == ACK;
    }
  }

  /** Main theorem: whatever the segmentation and the buffer size, the recorded events are those of the
      reference scanner, followed at most by acknowledgements behind the unfinished header that ends the
      stream, in its last four bytes. */
  lemma EventsRefineReference(lim: Limits, chunks: seq<seq<byte>>)
    requires lim.Valid()
    ensures var t := Flatten(chunks); var m := lim.maxDataLength;
            var events := Events(FinalLedger(lim, chunks));
            var reference := ReferenceEvents(m, t);
            && reference <= events
            && LateAcks(t, Reference(m, t, 0, false).end, events[|reference|..])
            && (forall i | |reference| <= i < |events| :: |t| <= events[i].offset + 4)
  {
    hide FinalLedger, Reference, ReferenceEvents;
    EventsFollowReference(lim, chunks);
  }

  /** Frames never depend on the segmentation, their offsets and contents included. */
  lemma FramesNeverDiffer(lim: Limits, chunks: seq<seq<byte>>)
    requires lim.Valid()
    ensures Frames(Events(FinalLedger(lim, chunks))) == Frames(ReferenceEvents(lim.maxDataLength, Flatten(chunks)))
  {
    hide FinalLedger, Reference, ReferenceEvents;
    EventsFollowReference(lim, chunks);
  }

  // ---------------------------------------------------------------- ambiguous streams do differ

  lemma {:induction false} DrainGrows(m: nat, c: Core)
    ensures |Events(c.ledger)| <= |Events(Drain(m, c).ledger)|
    decreases |c.pending|
  {
    if CanAdvance(m, c) {
      AdvanceEvents(m, c);
      DrainGrows(m, Advance(m, c));
    }
  }

  lemma JumpLandsPlausible(s: seq<byte>, k: nat)
    requires 1 <= k < |s| && s[k] == ACK
    ensures NextPlausible(s, 1) < |s| && Plausible(s, NextPlausible(s, 1))
  {
    assert Plausible(s, k);
  }

  lemma PlausibleVerdict(m: nat, t: seq<byte>, c: Core, j: nat)
    requires View(t, c) && j < |c.pending| && Plausible(c.pending, j)
    ensures var v := Classify(m, t, c.offset + j);
            && !v.Unframed? && !v.ShortHeader? && !v.BadHeader?
            && (v.Acknowledge? || c.offset + j + 6 <= |t|)
  {
    var p := c.offset + j;
    assert t[p] == c.pending[j];
    if t[p] == STX {
      forall i | p < i < p + 6 ensures IsDigit(t[i]) {
        assert IsDigit(c.pending[i - c.offset]);
      }
    }
  }

  /** An acknowledgement behind the unfinished header is already in the buffer. */
  predicate HoldsLateAck(m: nat, t: seq<byte>, c: Core) {
    exists i :: Reference(m, t, 0, false).end < i < |t| && i < c.offset + |c.pending| && t[i] == ACK
  }

  /** The malformed-header jump with a late ACK in the buffer: either the reference scan is unaffected by having
      met the malformed header, or the jump lands on a late ACK. */
  lemma AmbiguousJump(m: nat, t: seq<byte>, c: Core)
    requires Ambiguous(m, t) && HoldsLateAck(m, t, c)
    requires View(t, c) && CanAdvance(m, c)
    requires Classify(m, c.pending, 0).BadHeader? && c.offset <= Reference(m, t, 0, false).end
    ensures var d := Advance(m, c); var q := Reference(m, t, 0, false).end;
            && d.offset < c.offset + |c.pending|
            && var v := Classify(m, t, d.offset);
            && (q < d.offset ==> v.Acknowledge?)
            && (v.ShortFrame? ==> d.offset != q)
            && !v.ShortHeader? && !v.Unframed? && !v.BadHeader?
  {
    hide Reference;
    var q := Reference(m, t, 0, false).end;
    var k :| q < k < |t| && k < c.offset + |c.pending| && t[k] == ACK;
    assert c.pending[k - c.offset] == ACK;
    JumpLandsPlausible(c.pending, k - c.offset);
    PlausibleVerdict(m, t, c, NextPlausible(c.pending, 1));
  }

  /** Past the malformed header the scan is in step again or has overrun and emits the late ACK it landed on. */
  lemma JumpWithLateAck(m: nat, t: seq<byte>, c: Core)
    requires Ambiguous(m, t) && HoldsLateAck(m, t, c)
    requires View(t, c) && CanAdvance(m, c) && InStep(m, t, c, false) && Classify(m, c.pending, 0).BadHeader?
    ensures View(t, Advance(m, c))
    ensures InStep(m, t, Advance(m, c), false) || |ReferenceEvents(m, t)| < |Events(Drain(m, Advance(m, c)).ledger)|
  {
    hide NextEntry;
    var d := Advance(m, c);
    AdvanceInStep(m, t, c, false);
    AmbiguousJump(m, t, c);
    if InStep(m, t, d, true) {
      assert Reference(m, t, d.offset, true).end == Reference(m, t, 0, false).end;
      assert InStep(m, t, d, false);
    } else {
      assert d.pending[0] == t[d.offset];
      AdvanceEvents(m, d);
      DrainGrows(m, Advance(m, d));
    }
  }

  /** Draining an ambiguous stream's buffer that reaches a late ACK and has the malformed header ahead emits an
      acknowledgement the reference does not, unless it waits before that header. */
  lemma {:induction false} WindowOverruns(m: nat, t: seq<byte>, c: Core)
    requires Ambiguous(m, t) && HoldsLateAck(m, t, c)
    requires View(t, c) && InStep(m, t, c, false)
    ensures var d := Drain(m, c);
            || |ReferenceEvents(m, t)| < |Events(d.ledger)|
            || (View(t, d) && InStep(m, t, d, false))
    decreases |c.pending|
  {
    hide NextEntry, Classify, Reference, ReferenceEvents, InStep, Ambiguous, View, Events;
    if CanAdvance(m, c) {
      var d := Advance(m, c);
      if Classify(m, c.pending, 0).BadHeader? {
        JumpWithLateAck(m, t, c);
      } else {
        AdvanceInStep(m, t, c, false);
      }
      if |Events(Drain(m, d).ledger)| <= |ReferenceEvents(m, t)| {
        WindowOverruns(m, t, d);
      }
    }
  }

  lemma WaitingStops(m: nat, t: seq<byte>, c: Core)
    requires View(t, c) && c.offset + |c.pending| == |t| && !CanAdvance(m, c)
    ensures Reference(m, t, c.offset, false) == Outcome([], c.offset, false)
  {
    assert c.pending == t[c.offset..];
    if |c.pending| >= 6 {
      assert HeaderDigits(t, c.offset) by {
        forall i | c.offset < i < c.offset + 6 ensures IsDigit(t[i]) {
          assert IsDigit(c.pending[i - c.offset]);
        }
      }
    }
  }

  /** Fed in one piece to a large enough buffer, an ambiguous stream yields a late acknowledgement. */
  lemma AmbiguousDiffers(lim: Limits, t: seq<byte>)
    requires lim.Valid() && |t| <= lim.maxBufferBytes && Ambiguous(lim.maxDataLength, t)
    ensures Flatten([t]) == t
    ensures Events(FinalLedger(lim, [t])) != ReferenceEvents(lim.maxDataLength, t)
  {
    hide NextEntry, Classify;
    var m := lim.maxDataLength;
    var whole := [t];
    assert whole[1..] == [];
    var c := Receive(EMPTY_CORE, t);
    assert InStep(m, t, c, false);
    WindowOverruns(m, t, c);
    if |Events(Drain(m, c).ledger)| <= |ReferenceEvents(m, t)| {
      WaitingStops(m, t, Drain(m, c));
      assert false;
    }
    assert t[..|t|] == t && t[|t|..] == [];
    FeedUnfold(lim, EMPTY_CORE, t);
    assert FeedAll(lim, EMPTY_CORE, whole) == Drain(m, c);
    FinishKeepsEvents(m, Drain(m, c));
  }

  /** The framer is independent of the segmentation exactly on the streams that are not ambiguous. */
  lemma SegmentationIndependence(m: nat, t: seq<byte>)
    requires m <= 999
    ensures (forall lim: Limits, chunks | lim.Valid() && lim.maxDataLength == m && Flatten(chunks) == t ::
               Events(FinalLedger(lim, chunks)) == ReferenceEvents(m, t))
            <==> !Ambiguous(m, t)
  {
    if Ambiguous(m, t) {
      AmbiguousDiffers(Limits(m, |t| + m + FRAME_OVERHEAD, 1, 1, 0, true), t);
    } else {
      forall lim: Limits, chunks | lim.Valid() && lim.maxDataLength == m && Flatten(chunks) == t
        ensures Events(FinalLedger(lim, chunks)) == ReferenceEvents(m, t)
      {
        EventsFollowReference(lim, chunks);
      }
    }
  }

  /** A jump never passes a position where the complete stream holds an acceptable frame. */
  lemma NoFrameSkipped(m: nat, t: seq<byte>, c: Core, i: nat)
    requires View(t, c) && CanAdvance(m, c) && NextEntry(m, c).Gap?
    requires c.offset <= i < Advance(m, c).offset
    ensures i < |t| && !Classify(m, t, i).Accept?
  {
    if i == c.offset {
      ClassifyStable(m, t, c);
    } else if Classify(m, c.pending, 0).BadHeader? {
      JumpIsHopeless(t, c);
      assert Hopeless(t, i);
    } else {
      assert t[i] == c.pending[i - c.offset];
    }
  }

  // ---------------------------------------------------------------- a concrete ambiguous stream

  const DEFAULT_LIMITS := Limits(999, 4096, 8192, 256, 1024, true)

  /** A malformed header, then an unfinished header holding an ACK. */
  const AMBIGUOUS_STREAM: seq<byte> := [STX, 65, 65, 65, 65, 65, STX, ACK]

  lemma AmbiguousStreamIsAmbiguous()
    ensures Ambiguous(999, AMBIGUOUS_STREAM)
    ensures ReferenceEvents(999, AMBIGUOUS_STREAM) == []
  {
    var t := AMBIGUOUS_STREAM;
    assert !IsDigit(t[1]);
    assert !HeaderDigits(t, 0);
    assert Reference(999, t, 6, true) == Outcome([], 6, true);
    WalkUncontrolled(999, t, 1, 6, true);
    assert Reference(999, t, 0, false) == Outcome([], 6, true);
    assert t[7] == ACK;
  }

  /** The same eight bytes yield an acknowledgement in one chunk and none when cut after the sixth byte. */
  lemma SegmentationMatters()
    ensures var t := AMBIGUOUS_STREAM;
            && Flatten([t]) == Flatten([t[..6], t[6..]]) == t
            && Events(FinalLedger(DEFAULT_LIMITS, [t])) != []
            && Events(FinalLedger(DEFAULT_LIMITS, [t[..6], t[6..]])) == []
  {
    hide ReferenceEvents, FinalLedger, Ambiguous;
    var t := AMBIGUOUS_STREAM;
    var lim := DEFAULT_LIMITS;
    AmbiguousStreamIsAmbiguous();
    AmbiguousDiffers(lim, t);
    var head, tail := t[..6], t[6..];
    CutFeeds(lim, head, tail);
    var both, rest := [head, tail], [tail];
    assert both[1..] == rest && rest[1..] == [];
    assert Flatten(rest) == tail + [] == tail;
    assert head + tail == t;
  }

  lemma CutFeeds(lim: Limits, head: seq<byte>, tail: seq<byte>)
    requires lim == DEFAULT_LIMITS
    requires head == [STX, 65, 65, 65, 65, 65] && tail == [STX, ACK]
    ensures Events(FinalLedger(lim, [head, tail])) == []
  {
    var c := Receive(EMPTY_CORE, head);
    assert !IsDigit(head[1]);
    assert !HeaderDigits(head, 0);
    assert NextPlausible(head, 1) == 6;
    assert NextEntry(999, c) == Gap(0, MalformedHeader, 6);
    var d := Core([Gap(0, MalformedHeader, 6)], 6, []);
    assert Drain(999, c) == d;
    FeedWhole(lim, EMPTY_CORE, head);
    assert Feed(lim, EMPTY_CORE, head) == d;
    var e := Receive(d, tail);
    assert Drain(999, e) == e;
    FeedWhole(lim, d, tail);
    var both, rest := [head, tail], [tail];
    assert both[1..] == rest && rest[1..] == [];
    assert FeedAll(lim, EMPTY_CORE, both) == FeedAll(lim, d, rest) == e;
    FinishKeepsEvents(999, e);
    EventsAppend([], Gap(0, MalformedHeader, 6));
    assert [] + [Gap(0, MalformedHeader, 6)] == d.ledger;
  }

  lemma FeedWhole(lim: Limits, c: Core, chunk: seq<byte>)
    requires lim.Valid() && c.pending == [] && 0 < |chunk| <= lim.maxBufferBytes
    ensures Feed(lim, c, chunk) == Drain(lim.maxDataLength, Receive(c, chunk))
  {
    assert chunk[..|chunk|] == chunk && chunk[|chunk|..] == [];
    FeedUnfold(lim, c, chunk);
  }
}
