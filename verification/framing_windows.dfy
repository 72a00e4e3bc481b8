/** Segmentation for one configured framer, whose buffer may be shorter than the stream: where it must come to rest for
    a late ACK to reach it before the malformed header is judged. */
module FramingWindows {
  import opened RchBytes
  import opened FramingSpec
  import opened FramingRefinement
  import opened FramingTheorems

  /** A resting framer in step with the reference, with the malformed header still ahead, whose buffer can grow up
      to a late ACK before it judges anything more. */
  ghost predicate Straddles(lim: Limits, t: seq<byte>, c: Core) {
    var m := lim.maxDataLength;
    && View(t, c) && !CanAdvance(m, c) && InStep(m, t, c, false)
    && exists i :: Reference(m, t, 0, false).end < i < |t| && i < c.offset + lim.maxBufferBytes && t[i] == ACK
  }

  /** The stream is ambiguous, and some segmentation of a beginning of it leaves a framer with these limits within
      one buffer of a late ACK while the malformed header is still ahead. */
  ghost predicate Straddled(lim: Limits, t: seq<byte>)
    requires lim.Valid()
  {
    && Ambiguous(lim.maxDataLength, t)
    && exists head :: Flatten(head) <= t && Straddles(lim, t, FeedAll(lim, EMPTY_CORE, head))
  }

  // ---------------------------------------------------------------- such streams do differ

  lemma {:induction false} FeedGrows(lim: Limits, c: Core, chunk: seq<byte>)
    requires lim.Valid() && HasRoom(lim, c)
    ensures |Events(c.ledger)| <= |Events(Feed(lim, c, chunk).ledger)|
    decreases |chunk|
  {
    hide Drain;
    if chunk != [] {
      var count := FeedCount(lim, c, chunk);
      FeedUnfold(lim, c, chunk);
      DrainGrows(lim.maxDataLength, Receive(c, chunk[..count]));
      FeedGrows(lim, Drain(lim.maxDataLength, Receive(c, chunk[..count])), chunk[count..]);
    }
  }

  /** The rest of the stream in one chunk brings the late ACK into the buffer with the malformed header. */
  lemma {:induction false} RestOverruns(lim: Limits, t: seq<byte>, c: Core, chunk: seq<byte>)
    requires lim.Valid() && HasRoom(lim, c) && Ambiguous(lim.maxDataLength, t) && Straddles(lim, t, c)
    requires Upcoming(t, c, chunk) && c.offset + |c.pending| + |chunk| == |t|
    ensures |ReferenceEvents(lim.maxDataLength, t)| < |Events(Feed(lim, c, chunk).ledger)|
    decreases |chunk|
  {
    var m := lim.maxDataLength;
    hide Classify, Drain, CanAdvance, Reference, ReferenceEvents;
    if chunk == [] {
      NotAtEnd(m, t, c);
      assert false;
    } else {
      var count := FeedCount(lim, c, chunk);
      var w := Receive(c, chunk[..count]);
      var d := Drain(m, w);
      FeedUnfold(lim, c, chunk);
      WindowView(t, c, chunk, count);
      WindowOverruns(m, t, w);
      if |ReferenceEvents(m, t)| < |Events(d.ledger)| {
        FeedGrows(lim, d, chunk[count..]);
      } else {
        DrainRests(m, w);
        RestOverruns(lim, t, d, chunk[count..]);
      }
    }
  }

  lemma NotAtEnd(m: nat, t: seq<byte>, c: Core)
    requires Ambiguous(m, t) && View(t, c) && InStep(m, t, c, false) && c.offset + |c.pending| == |t|
    ensures CanAdvance(m, c)
  {
    if !CanAdvance(m, c) {
      WaitingStops(m, t, c);
    }
  }

  lemma DrainRests(m: nat, c: Core)
    ensures !CanAdvance(m, Drain(m, c)) && c.offset <= Drain(m, c).offset
    decreases |c.pending|
  {
    if CanAdvance(m, c) {
      DrainRests(m, Advance(m, c));
    }
  }

  lemma WindowView(t: seq<byte>, c: Core, chunk: seq<byte>, count: nat)
    requires View(t, c) && Upcoming(t, c, chunk) && count <= |chunk|
    ensures View(t, Receive(c, chunk[..count]))
    ensures forall d: Core | d.offset + |d.pending| == c.offset + |c.pending| + count :: Upcoming(t, d, chunk[count..])
  {
  }

  // ---------------------------------------------------------------- no others do

  /** Waiting forever on an STX behind the unfinished header, without having emitted anything more. */
  ghost predicate Stuck(m: nat, t: seq<byte>, c: Core) {
    && EndsInHeader(m, t)
    && Reference(m, t, 0, false).end < c.offset
    && Events(c.ledger) == ReferenceEvents(m, t)
    && c.pending != [] && c.pending[0] == STX
  }

  ghost predicate Safe(m: nat, t: seq<byte>, c: Core) {
    View(t, c) && ((exists a :: InStep(m, t, c, a)) || Stuck(m, t, c))
  }

  /** What a position other than an uncontrolled byte does to the scan does not depend on what came before. */
  lemma FlagForgotten(m: nat, t: seq<byte>, p: nat, a: bool)
    requires p < |t| && !Classify(m, t, p).Unframed? && !Classify(m, t, p).ShortHeader? && !Classify(m, t, p).ShortFrame?
    ensures Reference(m, t, p, a) == Reference(m, t, p, false)
  {
  }

  /** The malformed header ahead of the next position is ahead of this one. */
  lemma AheadBefore(m: nat, t: seq<byte>, c: Core, a: bool)
    requires View(t, c) && CanAdvance(m, c) && InStep(m, t, c, a)
    requires View(t, Advance(m, c))
    requires Classify(m, c.pending, 0).Unframed? ==> InStep(m, t, Advance(m, c), false)
    ensures InStep(m, t, c, false)
  {
    hide Reference, NextEntry, Classify, Events;
    ClassifyStable(m, t, c);
    if Classify(m, c.pending, 0).Unframed? {
      assert NextEntry(m, c).Gap?;
      ReferenceSkips(m, t, c, false);
      AdvanceEvents(m, c);
      assert Events(c.ledger) == Events(Advance(m, c).ledger);
    } else {
      FlagForgotten(m, t, c.offset, a);
    }
  }

  /** A jump past the unfinished header lands on a late ACK or gets stuck on an STX. */
  lemma OverrunLands(m: nat, t: seq<byte>, c: Core)
    requires View(t, c) && CanAdvance(m, c) && Classify(m, c.pending, 0).BadHeader?
    requires Overrun(m, t, Advance(m, c)) && c.offset <= Reference(m, t, 0, false).end
    ensures var d := Advance(m, c); d.pending != [] && (d.pending[0] == ACK || d.pending[0] == STX)
  {
    var q := Reference(m, t, 0, false).end;
    var s := c.pending;
    var j := NextPlausible(s, 1);
    assert t[c.offset] == STX;
    assert 6 <= |s| && c.offset + |s| <= |t|;
    assert s[q - c.offset] == t[q] == STX;
    assert j < |s|;
    assert Plausible(s, j) || s[j] == STX;
  }

  lemma StuckWaits(m: nat, t: seq<byte>, c: Core)
    requires View(t, c) && Stuck(m, t, c)
    ensures !CanAdvance(m, c)
  {
  }

  /** What a drain can have met when it goes wrong. */
  ghost predicate Met(m: nat, t: seq<byte>, c: Core)
    requires c.offset <= |t|
  {
    Ambiguous(m, t) && InStep(m, t, c, false) && HoldsLateAck(m, t, c)
  }

  lemma {:induction false} DrainSafe(m: nat, t: seq<byte>, c: Core, a: bool)
    requires View(t, c) && InStep(m, t, c, a)
    ensures Safe(m, t, Drain(m, c)) || Met(m, t, c)
    decreases |c.pending|
  {
    hide Classify, NextEntry, Reference;
    if CanAdvance(m, c) {
      var d, v := Advance(m, c), Classify(m, c.pending, 0);
      AdvanceInStep(m, t, c, a);
      var b := (v.Unframed? && a) || v.BadHeader?;
      if InStep(m, t, d, b) {
        DrainSafe(m, t, d, b);
        if Met(m, t, d) {
          AheadBefore(m, t, c, a);
        }
      } else {
        AheadBeforeJump(m, t, c, a);
        OverrunLands(m, t, c);
        LandedSafe(m, t, c, d);
      }
    }
  }

  lemma AheadBeforeJump(m: nat, t: seq<byte>, c: Core, a: bool)
    requires View(t, c) && CanAdvance(m, c) && InStep(m, t, c, a) && Classify(m, c.pending, 0).BadHeader?
    ensures InStep(m, t, c, false) && c.offset <= Reference(m, t, 0, false).end
  {
    ClassifyStable(m, t, c);
    FlagForgotten(m, t, c.offset, a);
  }

  lemma LandedSafe(m: nat, t: seq<byte>, c: Core, d: Core)
    requires View(t, c) && View(t, d) && InStep(m, t, c, false)
    requires d.offset + |d.pending| == c.offset + |c.pending|
    requires Overrun(m, t, d) && Events(d.ledger) == ReferenceEvents(m, t)
    requires d.pending != [] && (d.pending[0] == ACK || d.pending[0] == STX)
    ensures Safe(m, t, Drain(m, d)) || Met(m, t, c)
  {
    assert d.pending[0] == t[d.offset];
    if d.pending[0] == STX {
      StuckWaits(m, t, d);
    } else {
      assert HoldsLateAck(m, t, c);
    }
  }

  lemma SliceSafe(lim: Limits, t: seq<byte>, c: Core, chunk: seq<byte>, count: nat)
    requires lim.Valid() && Safe(lim.maxDataLength, t, c) && !CanAdvance(lim.maxDataLength, c)
    requires Upcoming(t, c, chunk) && count <= |chunk| && |c.pending| + count <= lim.maxBufferBytes
    ensures Safe(lim.maxDataLength, t, Drain(lim.maxDataLength, Receive(c, chunk[..count])))
            || (Ambiguous(lim.maxDataLength, t) && Straddles(lim, t, c))
  {
    var m := lim.maxDataLength;
    hide Classify, Reference, Drain;
    var w := Receive(c, chunk[..count]);
    WindowView(t, c, chunk, count);
    if a :| InStep(m, t, c, a) {
      assert InStep(m, t, w, a);
      DrainSafe(m, t, w, a);
    } else {
      assert Stuck(m, t, w);
      StuckWaits(m, t, w);
      DrainWaiting(m, w);
    }
  }

  lemma DrainWaiting(m: nat, c: Core)
    requires !CanAdvance(m, c)
    ensures Drain(m, c) == c
  {
  }

  // ---------------------------------------------------------------- whole runs

  lemma {:induction false} FeedAllAppend(lim: Limits, c: Core, head: seq<seq<byte>>, chunk: seq<byte>)
    requires lim.Valid() && HasRoom(lim, c)
    ensures FeedAll(lim, c, head + [chunk]) == Feed(lim, FeedAll(lim, c, head), chunk)
    ensures Flatten(head + [chunk]) == Flatten(head) + chunk
    decreases |head|
  {
    hide Feed;
    if head == [] {
      var one := [chunk];
      assert head + [chunk] == one && one[1..] == [];
      assert Flatten(one) == chunk + Flatten([]);
    } else {
      assert (head + [chunk])[1..] == head[1..] + [chunk];
      FeedAllAppend(lim, Feed(lim, c, head[0]), head[1..], chunk);
    }
  }

  /** A slice that fits the buffer is fed by one drain. */
  lemma FeedSlice(lim: Limits, c: Core, slice: seq<byte>)
    requires lim.Valid() && HasRoom(lim, c) && slice != [] && |c.pending| + |slice| <= lim.maxBufferBytes
    ensures Feed(lim, c, slice) == Drain(lim.maxDataLength, Receive(c, slice))
  {
    assert slice[..|slice|] == slice && slice[|slice|..] == [];
    FeedUnfold(lim, c, slice);
  }

  /** head is a segmentation of what c has seen of t. */
  ghost predicate Reached(lim: Limits, t: seq<byte>, head: seq<seq<byte>>, c: Core)
    requires lim.Valid()
  {
    && c == FeedAll(lim, EMPTY_CORE, head)
    && c.offset + |c.pending| <= |t|
    && Flatten(head) == t[..c.offset + |c.pending|]
    && !CanAdvance(lim.maxDataLength, c)
    && HasRoom(lim, c)
  }

  lemma ReachedNext(lim: Limits, t: seq<byte>, head: seq<seq<byte>>, c: Core, chunk: seq<byte>, count: nat)
    requires lim.Valid() && Reached(lim, t, head, c) && Upcoming(t, c, chunk)
    requires 0 < count <= |chunk| && |c.pending| + count <= lim.maxBufferBytes
    ensures Reached(lim, t, head + [chunk[..count]], Drain(lim.maxDataLength, Receive(c, chunk[..count])))
  {
    hide Classify, CanAdvance, Drain;
    var slice := chunk[..count];
    FeedAllAppend(lim, EMPTY_CORE, head, slice);
    FeedSlice(lim, c, slice);
    var seen := c.offset + |c.pending|;
    assert t[..seen] + t[seen..seen + count] == t[..seen + count];
    DrainRests(lim.maxDataLength, Receive(c, slice));
  }

  lemma {:induction false} FeedSafe(lim: Limits, t: seq<byte>, head: seq<seq<byte>>, c: Core, chunk: seq<byte>)
    returns (next: seq<seq<byte>>)
    requires lim.Valid() && Reached(lim, t, head, c) && Safe(lim.maxDataLength, t, c) && Upcoming(t, c, chunk)
    ensures Straddled(lim, t) ||
            (var d := Feed(lim, c, chunk); Reached(lim, t, next, d) && Safe(lim.maxDataLength, t, d))
    decreases |chunk|
  {
    var m := lim.maxDataLength;
    hide Classify, Reference, InStep, Stuck, Drain, CanAdvance, Ambiguous, Straddles, View;
    next := head;
    if chunk != [] {
      var count := FeedCount(lim, c, chunk);
      var d := Drain(m, Receive(c, chunk[..count]));
      FeedUnfold(lim, c, chunk);
      SliceSafe(lim, t, c, chunk, count);
      ReachedNext(lim, t, head, c, chunk, count);
      if Safe(m, t, d) {
        UpcomingNext(t, c, d, chunk, count);
        next := FeedSafe(lim, t, head + [chunk[..count]], d, chunk[count..]);
      } else {
        assert Flatten(head) <= t;
      }
    }
  }

  lemma UpcomingNext(t: seq<byte>, c: Core, d: Core, chunk: seq<byte>, count: nat)
    requires Upcoming(t, c, chunk) && count <= |chunk| && d.offset + |d.pending| == c.offset + |c.pending| + count
    ensures Upcoming(t, d, chunk[count..])
  {
  }

  lemma {:induction false} FeedAllSafe(lim: Limits, t: seq<byte>, head: seq<seq<byte>>, c: Core, chunks: seq<seq<byte>>)
    requires lim.Valid() && Reached(lim, t, head, c) && Safe(lim.maxDataLength, t, c)
    requires t[c.offset + |c.pending|..] == Flatten(chunks)
    ensures Straddled(lim, t) ||
            (var d := FeedAll(lim, c, chunks);
             Safe(lim.maxDataLength, t, d) && d.offset + |d.pending| == |t| && !CanAdvance(lim.maxDataLength, d))
    decreases |chunks|
  {
    hide Safe, Straddled, Feed, CanAdvance;
    if chunks != [] {
      var seen := c.offset + |c.pending|;
      assert t[seen..seen + |chunks[0]|] == t[seen..][..|chunks[0]|] == chunks[0];
      assert t[seen + |chunks[0]|..] == t[seen..][|chunks[0]|..] == Flatten(chunks[1..]);
      var next := FeedSafe(lim, t, head, c, chunks[0]);
      if !Straddled(lim, t) {
        FeedAllSafe(lim, t, next, Feed(lim, c, chunks[0]), chunks[1..]);
      }
    }
  }

  lemma SafeAtEnd(m: nat, t: seq<byte>, c: Core)
    requires Safe(m, t, c) && c.offset + |c.pending| == |t| && !CanAdvance(m, c)
    ensures Events(Finish(m, c).ledger) == ReferenceEvents(m, t)
  {
    hide Classify, Reference, Finish, CanAdvance;
    FinishKeepsEvents(m, c);
    if a :| InStep(m, t, c, a) {
      InStepAtEnd(m, t, c, a);
    }
  }

  lemma OthersAgree(lim: Limits, t: seq<byte>, chunks: seq<seq<byte>>)
    requires lim.Valid() && Flatten(chunks) == t && !Straddled(lim, t)
    ensures Events(FinalLedger(lim, chunks)) == ReferenceEvents(lim.maxDataLength, t)
  {
    var m := lim.maxDataLength;
    assert InStep(m, t, EMPTY_CORE, false);
    assert Safe(m, t, EMPTY_CORE);
    var none: seq<seq<byte>> := [];
    assert Reached(lim, t, none, EMPTY_CORE);
    assert t[0..] == t;
    hide Safe, Straddled, FeedAll, Finish, ReferenceEvents, CanAdvance;
    FeedAllSafe(lim, t, none, EMPTY_CORE, chunks);
    SafeAtEnd(m, t, FeedAll(lim, EMPTY_CORE, chunks));
  }

  lemma WithinDiffers(lim: Limits, t: seq<byte>) returns (chunks: seq<seq<byte>>)
    requires lim.Valid() && Straddled(lim, t)
    ensures Flatten(chunks) == t && Events(FinalLedger(lim, chunks)) != ReferenceEvents(lim.maxDataLength, t)
  {
    hide Classify, Reference, ReferenceEvents, Ambiguous, CanAdvance, Feed, FeedAll, Finish;
    var head :| Flatten(head) <= t && Straddles(lim, t, FeedAll(lim, EMPTY_CORE, head));
    var c := FeedAll(lim, EMPTY_CORE, head);
    SeenLength(lim, EMPTY_CORE, head);
    var seen := c.offset + |c.pending|;
    var rest := t[seen..];
    assert Flatten(head) == t[..seen];
    chunks := head + [rest];
    FeedAllAppend(lim, EMPTY_CORE, head, rest);
    RestOverruns(lim, t, c, rest);
    var d := Feed(lim, c, rest);
    FeedRests(lim, c, rest);
    FinishKeepsEvents(lim.maxDataLength, d);
  }

  lemma {:induction false} SeenLength(lim: Limits, c: Core, chunks: seq<seq<byte>>)
    requires lim.Valid() && HasRoom(lim, c)
    ensures var r := FeedAll(lim, c, chunks); r.offset + |r.pending| == c.offset + |c.pending| + |Flatten(chunks)|
    decreases |chunks|
  {
    hide Feed;
    if chunks != [] {
      SeenLength(lim, Feed(lim, c, chunks[0]), chunks[1..]);
    }
  }

  lemma FeedRests(lim: Limits, c: Core, chunk: seq<byte>)
    requires lim.Valid() && HasRoom(lim, c) && !CanAdvance(lim.maxDataLength, c)
    ensures !CanAdvance(lim.maxDataLength, Feed(lim, c, chunk))
  {
  }

  // ---------------------------------------------------------------- what it takes in bytes

  lemma {:induction false} MalformedAhead(m: nat, t: seq<byte>, p: nat) returns (i: nat)
    requires p <= |t| && Reference(m, t, p, false).afterBadHeader
    ensures p <= i < Reference(m, t, p, false).end && Classify(m, t, i).BadHeader?
    decreases |t| - p
  {
    var v := Classify(m, t, p);
    if v.BadHeader? {
      i := p;
      BadHeaderMoves(m, t, p);
    } else {
      i := MalformedAhead(m, t, if v.Accept? then p + v.size else p + 1);
    }
  }

  lemma BadHeaderMoves(m: nat, t: seq<byte>, p: nat)
    requires p < |t| && Classify(m, t, p).BadHeader?
    ensures p < Reference(m, t, p, false).end
  {
  }

  /** For one framer any deviation from the reference needs a malformed header and, behind the unfinished header,
      an ACK that lie together in less than one buffer. */
  lemma DeviationNeedsOneWindow(lim: Limits, chunks: seq<seq<byte>>) returns (p: nat, i: nat)
    requires lim.Valid()
    requires Events(FinalLedger(lim, chunks)) != ReferenceEvents(lim.maxDataLength, Flatten(chunks))
    ensures var t, m := Flatten(chunks), lim.maxDataLength;
            && p < Reference(m, t, 0, false).end < i < |t|
            && Classify(m, t, p).BadHeader? && t[i] == ACK && i - p < lim.maxBufferBytes
  {
    hide Classify, FinalLedger, ReferenceEvents, CanAdvance, FeedAll, Reference;
    var t, m := Flatten(chunks), lim.maxDataLength;
    if !Straddled(lim, t) {
      OthersAgree(lim, t, chunks);
    }
    var head :| Flatten(head) <= t && Straddles(lim, t, FeedAll(lim, EMPTY_CORE, head));
    var c := FeedAll(lim, EMPTY_CORE, head);
    i :| Reference(m, t, 0, false).end < i < |t| && i < c.offset + lim.maxBufferBytes && t[i] == ACK;
    p := MalformedAhead(m, t, c.offset);
  }
}
