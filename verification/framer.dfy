/** The incremental stream framer: a byte buffer with a cursor, bounded histories and running counters. */
module StreamFramer {
  import opened RchBytes
  import opened FramingSpec
  import opened FramingEvents
  import opened FramerRecords
  import opened FramingRoundTrip
  import opened FramingDamage
  import Theorems = FramingTheorems
  import Refinement = FramingRefinement

  datatype FeedOutcome = Emitted(events: seq<StreamEvent>) | AlreadyFinished

  /** How many ledger entries and events preceded the last clearing of the histories. */
  datatype Mark = Mark(entries: nat, events: nat)

  class RCHStreamFramer {
    const limits: Limits
    var buffer: seq<byte>
    var cursor: nat
    var bufferOffset: nat
    var bytesSeen: nat
    var eventCount: nat
    var frameCount: nat
    var ackCount: nat
    var events: seq<StreamEvent>
    var issues: seq<FramingIssue>
    var eventsTruncated: bool
    var omittedIssueCount: nat
    var finished: bool

    /** Complete record of the consumed stream, and of the issues raised since history was cleared. */
    ghost var ledger: seq<Entry>
    ghost var diagnosed: seq<FramingIssue>
    ghost var mark: Mark

    /** The bytes received but not yet consumed. */
    function BufferedBytes(): seq<byte>
      requires cursor <= |buffer|
      reads this
    {
      buffer[cursor..]
    }

    ghost function State(): Core
      requires cursor <= |buffer|
      reads this
    {
      Core(ledger, bufferOffset, BufferedBytes())
    }

    ghost predicate Inv()
      reads this
    {
      && limits.Valid()
      && cursor <= |buffer| <= limits.maxBufferBytes
      && bufferOffset + |BufferedBytes()| == bytesSeen
      && Tiles(ledger, 0, bufferOffset)
      && frameCount == FrameCount(ledger)
      && ackCount == AckCount(ledger)
      && eventCount == frameCount + ackCount
      && EventsOk(limits, ledger, mark.events, events, eventsTruncated)
      && Diagnosed(ledger, mark.entries, diagnosed)
      && Noticed(diagnosed, eventsTruncated)
      && IssuesOk(limits, diagnosed, issues, omittedIssueCount, finished, bytesSeen)
    }

    /** The state between two calls. */
    ghost predicate Valid()
      reads this
    {
      && Inv()
      && !CanAdvance(limits.maxDataLength, State())
      && (finished ==> BufferedBytes() == [])
      && (!limits.retainHistory && !finished ==> mark.events == |Numbered(ledger)| && diagnosed == [])
      && (limits.retainHistory ==> mark == Mark(0, 0))
    }

    constructor (limits: Limits)
      requires limits.Valid()
      ensures Valid() && !finished && this.limits == limits
      ensures State() == EMPTY_CORE && bytesSeen == 0
    {
      this.limits := limits;
      buffer, cursor, bufferOffset, bytesSeen := [], 0, 0, 0;
      eventCount, frameCount, ackCount := 0, 0, 0;
      events, issues, eventsTruncated, omittedIssueCount, finished := [], [], false, 0, false;
      ledger, diagnosed, mark := [], [], Mark(0, 0);
    }

    // -------------------------------------------------------------- consuming the buffer

    method Consume(count: nat) returns (raw: seq<byte>)
      requires cursor <= |buffer| && count <= |buffer| - cursor
      modifies this`buffer, this`cursor, this`bufferOffset
      ensures cursor <= |buffer| <= old(|buffer|)
      ensures raw == old(BufferedBytes())[..count]
      ensures BufferedBytes() == old(BufferedBytes())[count..]
      ensures bufferOffset == old(bufferOffset) + count
    {
      raw := buffer[cursor..cursor + count];
      cursor := cursor + count;
      bufferOffset := bufferOffset + count;
      if cursor == |buffer| {
        buffer := [];
        cursor := 0;
      }
    }

    method AppendIssue(issue: FramingIssue)
      requires IssuesOk(limits, diagnosed, issues, omittedIssueCount, false, bytesSeen) && PreviewOk(limits, issue)
      modifies this`issues, this`omittedIssueCount, this`diagnosed
      ensures diagnosed == old(diagnosed) + [issue]
      ensures IssuesOk(limits, diagnosed, issues, omittedIssueCount, false, bytesSeen)
    {
      if |issues| < limits.maxIssues {
        issues := issues + [issue];
      } else {
        omittedIssueCount := omittedIssueCount + 1;
      }
      diagnosed := diagnosed + [issue];
    }

    /** Rejects the next count bytes. */
    method Issue(code: IssueCode, count: nat)
      requires Inv() && !finished && 0 < count <= |BufferedBytes()|
      requires !code.EventLimitExceeded?
      modifies this
      ensures Inv() && !finished
      ensures State() == old(State()).Record(Gap(old(bufferOffset), code, count))
      ensures bytesSeen == old(bytesSeen) && mark == old(mark)
    {
      hide Diagnoses, Reports, Numbered, FrameCount, AckCount, Tiles, EventsOk, IssuesOk, Diagnosed;
      ghost var e := Gap(bufferOffset, code, count);
      var preview := if count <= limits.maxIssueRawBytes then count else limits.maxIssueRawBytes;
      var issue := FramingIssue(code, bufferOffset, buffer[cursor..cursor + preview], count);
      ReportsAppend(diagnosed, issue);
      DiagnosedAppend(ledger, mark.entries, diagnosed, e, [issue]);
      AppendIssue(issue);
      TilesAppend(ledger, 0, bufferOffset, e);
      NumberedAppend(ledger, e);
      GapRecorded(limits, ledger, mark.events, events, eventsTruncated, e);
      var _ := Consume(count);
      ledger := ledger + [e];
    }

    method NoteEventLimit(streamOffset: nat)
      requires IssuesOk(limits, diagnosed, issues, omittedIssueCount, false, bytesSeen)
      requires Noticed(diagnosed, eventsTruncated)
      modifies this`issues, this`omittedIssueCount, this`diagnosed, this`eventsTruncated
      ensures eventsTruncated
      ensures Noticed(diagnosed, eventsTruncated)
      ensures Reports(diagnosed) == old(Reports(diagnosed))
      ensures IssuesOk(limits, diagnosed, issues, omittedIssueCount, false, bytesSeen)
    {
      if eventsTruncated {
        return;
      }
      eventsTruncated := true;
      ReportsAppend(diagnosed, FramingIssue(EventLimitExceeded, streamOffset, [], 0));
      AppendIssue(FramingIssue(EventLimitExceeded, streamOffset, [], 0));
    }

    // -------------------------------------------------------------- resynchronisation

    method NextControlByte(start: nat) returns (found: bool, relative: nat)
      requires cursor <= |buffer| && start <= |BufferedBytes()|
      ensures relative == NextControl(BufferedBytes(), start)
      ensures found <==> relative < |BufferedBytes()|
    {
      relative := start;
      while relative < |buffer| - cursor
        invariant start <= relative <= |BufferedBytes()|
        invariant NextControl(BufferedBytes(), relative) == NextControl(BufferedBytes(), start)
      {
        if IsControl(buffer[cursor + relative]) {
          return true, relative;
        }
        relative := relative + 1;
      }
      found := false;
    }

    method RejectCandidate(code: IssueCode, plausibleOnly: bool)
      requires Inv() && !finished && BufferedBytes() != []
      requires !code.EventLimitExceeded?
      modifies this
      ensures Inv() && !finished
      ensures var s := old(BufferedBytes());
              State() == old(State()).Record(
                Gap(old(bufferOffset), code, if plausibleOnly then NextPlausible(s, 1) else NextControl(s, 1)))
      ensures bytesSeen == old(bytesSeen) && mark == old(mark)
    {
      hide Tiles, EventsOk, IssuesOk, Diagnosed, Noticed;
      var count: nat;
      if plausibleOnly {
        count := NextPlausible(BufferedBytes(), 1);
      } else {
        var _, relative := NextControlByte(1);
        count := relative;
      }
      Issue(code, count);
    }

    // -------------------------------------------------------------- events

    /** Keeps the record of the next event, or notes that the list is full. */
    method AppendEvent(streamEvent: StreamEvent, ghost e: Entry)
      requires EventsOk(limits, ledger, mark.events, events, eventsTruncated) && !e.Gap?
      requires Numbered(ledger + [e]) == Numbered(ledger) + [streamEvent]
      requires IssuesOk(limits, diagnosed, issues, omittedIssueCount, false, bytesSeen)
      requires Noticed(diagnosed, eventsTruncated)
      modifies this`events, this`issues, this`omittedIssueCount, this`diagnosed, this`eventsTruncated
      ensures EventsOk(limits, ledger + [e], mark.events, events, eventsTruncated)
      ensures Noticed(diagnosed, eventsTruncated)
      ensures Reports(diagnosed) == old(Reports(diagnosed))
      ensures IssuesOk(limits, diagnosed, issues, omittedIssueCount, false, bytesSeen)
    {
      hide Numbered, Reports, IssuesOk, Noticed, EventsOk;
      if |events| < limits.maxEvents {
        EventRetained(limits, ledger, mark.events, events, eventsTruncated, e);
        events := events + [streamEvent];
        return;
      }
      EventOmitted(limits, ledger, mark.events, events, eventsTruncated, e);
      NoteEventLimit(streamEvent.streamOffset);
    }

    /** Takes one acknowledgement while the event list has room. */
    method TakeAck()
      requires Inv() && !finished && BufferedBytes() != [] && BufferedBytes()[0] == ACK
      requires |events| < limits.maxEvents
      modifies this`buffer, this`cursor, this`bufferOffset, this`eventCount, this`ackCount, this`events, this`issues,
               this`omittedIssueCount, this`diagnosed, this`eventsTruncated, this`ledger
      ensures Inv() && !finished
      ensures State() == old(State()).Record(AckAt(old(bufferOffset)))
    {
      hide Diagnoses, Reports, Numbered, FrameCount, AckCount, Tiles, EventsOk, IssuesOk, Diagnosed, Noticed;
      var offset := bufferOffset;
      ghost var l, e, before := ledger, AckAt(offset), diagnosed;
      NumberedAppend(l, e);
      TilesAppend(l, 0, offset, e);
      var _ := Consume(1);
      eventCount := eventCount + 1;
      ackCount := ackCount + 1;
      AppendEvent(AckEvent(eventCount, offset), e);
      DiagnosedSame(l, mark.entries, before, diagnosed);
      AckDiagnosed(l, mark.entries, diagnosed, offset);
      ledger := l + [e];
    }

    /** Counts a whole run of acknowledgements once the event list is full. */
    method CountAckRun()
      requires Inv() && !finished && BufferedBytes() != [] && BufferedBytes()[0] == ACK
      requires limits.maxEvents <= |events|
      modifies this`buffer, this`cursor, this`bufferOffset, this`eventCount, this`ackCount, this`events, this`issues,
               this`omittedIssueCount, this`diagnosed, this`eventsTruncated, this`ledger
      ensures Inv() && !finished
      ensures |BufferedBytes()| < old(|BufferedBytes()|)
      ensures Drain(limits.maxDataLength, State()) == old(Drain(limits.maxDataLength, State()))
    {
      hide Diagnoses, Reports, Numbered, FrameCount, AckCount, Tiles, Drain, EventsOk, IssuesOk, Diagnosed, AckRun, Noticed;
      var run := CountLeadingAcks();
      var offset := bufferOffset;
      AckRunDrains(limits.maxDataLength, State(), run);
      AckRunTiles(ledger, offset, run);
      var _ := Consume(run);
      BookAckRun(offset, run);
    }

    /** Counts a run of acknowledgements that is not retained. */
    method BookAckRun(offset: nat, run: nat)
      requires 0 < run && limits.maxEvents <= |events|
      requires frameCount == FrameCount(ledger) && ackCount == AckCount(ledger) && eventCount == frameCount + ackCount
      requires EventsOk(limits, ledger, mark.events, events, eventsTruncated)
      requires Diagnosed(ledger, mark.entries, diagnosed) && Noticed(diagnosed, eventsTruncated)
      requires IssuesOk(limits, diagnosed, issues, omittedIssueCount, false, bytesSeen)
      modifies this`eventCount, this`ackCount, this`issues, this`omittedIssueCount, this`diagnosed, this`eventsTruncated, this`ledger
      ensures ledger == old(ledger) + AckRun(offset, run)
      ensures frameCount == FrameCount(ledger) && ackCount == AckCount(ledger) && eventCount == frameCount + ackCount
      ensures EventsOk(limits, ledger, mark.events, events, eventsTruncated)
      ensures Diagnosed(ledger, mark.entries, diagnosed) && Noticed(diagnosed, eventsTruncated)
      ensures IssuesOk(limits, diagnosed, issues, omittedIssueCount, false, bytesSeen)
    {
      hide Diagnoses, Reports, Numbered, FrameCount, AckCount, EventsOk, IssuesOk, Diagnosed, AckRun, Noticed;
      ghost var l, before := ledger, diagnosed;
      AckRunOmitted(limits, l, mark.events, events, eventsTruncated, offset, run);
      eventCount := eventCount + run;
      ackCount := ackCount + run;
      NoteEventLimit(offset);
      DiagnosedSame(l, mark.entries, before, diagnosed);
      AckRunDiagnosed(l, mark.entries, diagnosed, offset, run);
      ledger := l + AckRun(offset, run);
    }

    method CountLeadingAcks() returns (run: nat)
      requires cursor <= |buffer| && BufferedBytes() != [] && BufferedBytes()[0] == ACK
      ensures 1 <= run <= |BufferedBytes()|
      ensures forall i | 0 <= i < run :: BufferedBytes()[i] == ACK
      ensures run < |BufferedBytes()| ==> BufferedBytes()[run] != ACK
    {
      run := 1;
      while run < |buffer| - cursor && buffer[cursor + run] == ACK
        invariant 1 <= run <= |BufferedBytes()|
        invariant forall i | 0 <= i < run :: BufferedBytes()[i] == ACK
      {
        run := run + 1;
      }
    }

    /** Decodes the complete frame of the given size at the front of the buffer. */
    method ReadFrame(size: nat) returns (frame: StreamEvent)
      requires cursor <= |buffer| && FRAME_OVERHEAD <= size <= |BufferedBytes()|
      ensures frame == ParseFrame(eventCount + 1, frameCount + 1, bufferOffset, BufferedBytes()[..size])
    {
      hide Xor, HexPair, BccMatches;
      var raw := buffer[cursor..cursor + size];
      var dataLength := size - FRAME_OVERHEAD;
      var bccStart := size - 3;
      var bccValue := CalculateBcc(raw[..bccStart]);
      var expectedBcc := HexPair(bccValue);
      var actualBcc := raw[bccStart..bccStart + 2];
      frame := RCHFrame(eventCount + 1, frameCount + 1, bufferOffset, raw, raw[1..3], dataLength, raw[6],
                        raw[7..7 + dataLength], raw[7 + dataLength],
                        actualBcc, expectedBcc, BccMatches(actualBcc, expectedBcc));
      assert raw == BufferedBytes()[..size];
    }

    /** Takes the complete frame of the given size; a bad BCC is reported but the frame is kept. */
    method TakeFrame(size: nat)
      requires Inv() && !finished && FRAME_OVERHEAD <= size <= |BufferedBytes()|
      modifies this`buffer, this`cursor, this`bufferOffset, this`eventCount, this`frameCount, this`events, this`issues,
               this`omittedIssueCount, this`diagnosed, this`eventsTruncated, this`ledger
      ensures Inv() && !finished
      ensures State() == old(State()).Record(FrameAt(old(bufferOffset), old(BufferedBytes())[..size]))
    {
      hide Diagnoses, Reports, Numbered, FrameCount, AckCount, Tiles, EventsOk, IssuesOk, Diagnosed, ParseFrame, Noticed;
      var frame := ReadFrame(size);
      var offset := bufferOffset;
      ghost var l, e, before := ledger, FrameAt(offset, BufferedBytes()[..size]), diagnosed;
      NumberedAppend(l, e);
      TilesAppend(l, 0, offset, e);
      eventCount := eventCount + 1;
      frameCount := frameCount + 1;
      var raw := Consume(size);
      AppendEvent(frame, e);
      DiagnosedSame(l, mark.entries, before, diagnosed);
      ReportBcc(frame, offset, raw);
      ledger := l + [e];
    }

    /** Reports a frame whose BCC does not match. */
    method ReportBcc(frame: StreamEvent, offset: nat, raw: RawFrame)
      requires exists i, j :: frame == ParseFrame(i, j, offset, raw)
      requires IssuesOk(limits, diagnosed, issues, omittedIssueCount, false, bytesSeen)
      requires Noticed(diagnosed, eventsTruncated)
      requires Diagnosed(ledger, mark.entries, diagnosed)
      modifies this`issues, this`omittedIssueCount, this`diagnosed
      ensures IssuesOk(limits, diagnosed, issues, omittedIssueCount, false, bytesSeen)
      ensures Noticed(diagnosed, eventsTruncated)
      ensures Diagnosed(ledger + [FrameAt(offset, raw)], mark.entries, diagnosed)
    {
      hide IssuesOk, Diagnosed;
      ghost var more: seq<FramingIssue> := [];
      ghost var before := diagnosed;
      if !frame.bccValid {
        var preview := if |raw| <= limits.maxIssueRawBytes then |raw| else limits.maxIssueRawBytes;
        var issue := FramingIssue(InvalidBcc, offset, raw[..preview], |raw|);
        ReportsAppend(diagnosed, issue);
        AppendIssue(issue);
        more := [issue];
      }
      assert before + [] == before;
      DiagnosedAppend(ledger, mark.entries, before, FrameAt(offset, raw), more);
    }

    // -------------------------------------------------------------- processing

    /** Rejects the STX at the front of the buffer when its header is malformed, its length exceeds the
        limit or its terminator is missing. */
    method RejectFront(verdict: Verdict)
      requires Inv() && !finished && BufferedBytes() != []
      requires verdict == Classify(limits.maxDataLength, BufferedBytes(), 0)
      requires verdict.BadHeader? || verdict.Oversize? || verdict.BadTerminator? || verdict.Unframed?
      modifies this
      ensures Inv() && !finished
      ensures State() == Advance(limits.maxDataLength, old(State()))
      ensures bytesSeen == old(bytesSeen) && mark == old(mark)
    {
      hide Tiles, EventsOk, IssuesOk, Diagnosed, Noticed;
      if verdict.BadHeader? {
        RejectCandidate(MalformedHeader, true);
      } else if verdict.Oversize? {
        RejectCandidate(OversizeFrame, false);
      } else if verdict.BadTerminator? {
        RejectCandidate(InvalidTerminator, false);
      } else {
        RejectCandidate(UnframedBytes, false);
      }
    }

    /** Judges the front of the buffer, field by field. */
    method Judge() returns (verdict: Verdict)
      requires cursor < |buffer|
      ensures verdict == Classify(limits.maxDataLength, BufferedBytes(), 0)
    {
      ghost var s := BufferedBytes();
      var available := |buffer| - cursor;
      var first := buffer[cursor];
      if first == ACK {
        return Acknowledge;
      }
      if first != STX {
        return Unframed;
      }
      if available < 6 {
        return ShortHeader;
      }
      var digits := true;
      for i := 1 to 6
        invariant digits <==> forall k | 0 < k < i :: IsDigit(s[k])
      {
        digits := digits && IsDigit(buffer[cursor + i]);
      }
      if !digits {
        return BadHeader;
      }
      var dataLength := 100 * DigitValue(buffer[cursor + 3]) + 10 * DigitValue(buffer[cursor + 4]) + DigitValue(buffer[cursor + 5]);
      assert dataLength == DeclaredLength(s, 0);
      if dataLength > limits.maxDataLength {
        return Oversize;
      }
      var expectedSize := dataLength + FRAME_OVERHEAD;
      if available < expectedSize {
        return ShortFrame;
      }
      if buffer[cursor + expectedSize - 1] != ETX {
        return BadTerminator;
      }
      verdict := Accept(expectedSize);
    }

    method Process(final: bool)
      requires Inv() && !finished
      modifies this
      ensures Inv() && !finished
      ensures State() == if final then FramingSpec.Finish(limits.maxDataLength, old(State()))
                         else Drain(limits.maxDataLength, old(State()))
      ensures bytesSeen == old(bytesSeen) && mark == old(mark)
    {
      hide Tiles, EventsOk, IssuesOk, Diagnosed, Classify, NextEntry, Drain, Noticed;
      ghost var m, start := limits.maxDataLength, State();
      while cursor < |buffer|
        invariant Inv() && !finished
        invariant Drain(m, State()) == Drain(m, start)
        invariant bytesSeen == old(bytesSeen) && mark == old(mark)
        decreases |BufferedBytes()|
      {
        ghost var c := State();
        var verdict := Judge();
        DrainStep(m, c);
        match verdict {
          case Acknowledge =>
            AckAtFront(m, c);
            if limits.maxEvents <= |events| {
              CountAckRun();
            } else {
              TakeAck();
            }
          case ShortHeader =>
            if final {
              Issue(TruncatedFrame, |buffer| - cursor);
            }
            return;
          case ShortFrame =>
            if final {
              Issue(TruncatedFrame, |buffer| - cursor);
            }
            return;
          case Accept(size) =>
            AcceptFits(m, c);
            TakeFrame(size);
          case _ =>
            RejectFront(verdict);
        }
      }
      DrainStep(m, State());
    }

    // -------------------------------------------------------------- public operations

    /** Lets a chunk into the bounded buffer slice by slice, processing after each slice. */
    method Absorb(chunk: seq<byte>)
      requires Inv() && !finished && HasRoom(limits, State())
      modifies this
      ensures Inv() && !finished && HasRoom(limits, State())
      ensures State() == FramingSpec.Feed(limits, old(State()), chunk)
      ensures bytesSeen == old(bytesSeen) + |chunk| && mark == old(mark)
    {
      hide Tiles, EventsOk, IssuesOk, Diagnosed, Classify, NextEntry, Drain, CanAdvance, Noticed;
      ghost var start, rest := State(), chunk;
      var position := 0;
      while position < |chunk|
        invariant position <= |chunk| && rest == chunk[position..]
        invariant Inv() && !finished && HasRoom(limits, State())
        invariant FramingSpec.Feed(limits, State(), rest) == FramingSpec.Feed(limits, start, chunk)
        invariant bytesSeen == old(bytesSeen) + position && mark == old(mark)
      {
        ghost var c := State();
        var capacity := limits.maxBufferBytes - (|buffer| - cursor);
        assert 0 < capacity;
        var count := if capacity < |chunk| - position then capacity else |chunk| - position;
        Refinement.FeedUnfold(limits, c, rest);
        SliceRest(chunk, position, count);
        AbsorbSlice(chunk[position..position + count]);
        position := position + count;
        rest := rest[count..];
      }
    }

    method AbsorbSlice(slice: seq<byte>)
      requires Inv() && !finished && HasRoom(limits, State())
      requires |BufferedBytes()| + |slice| <= limits.maxBufferBytes
      modifies this
      ensures Inv() && !finished
      ensures State() == Drain(limits.maxDataLength, Receive(old(State()), slice))
      ensures bytesSeen == old(bytesSeen) + |slice| && mark == old(mark)
    {
      hide Tiles, EventsOk, Diagnosed, Drain, Noticed;
      ghost var c := State();
      Compact();
      buffer := buffer + slice;
      bytesSeen := bytesSeen + |slice|;
      assert State() == Receive(c, slice);
      Process(false);
    }

    /** Drops the consumed bytes; the defensive case of a full buffer cannot arise, because a waiting
        buffer is shorter than the largest frame. */
    method Compact()
      requires Inv() && HasRoom(limits, State())
      modifies this`buffer, this`cursor
      ensures Inv() && State() == old(State()) && cursor == 0 && |buffer| < limits.maxBufferBytes
    {
      hide Tiles, EventsOk, IssuesOk, Diagnosed, Noticed;
      buffer := buffer[cursor..];
      cursor := 0;
    }

    method ForgetHistory()
      requires Inv() && !finished
      modifies this`events, this`issues, this`eventsTruncated, this`omittedIssueCount, this`diagnosed, this`mark
      ensures Inv() && events == [] && issues == [] && diagnosed == []
      ensures State() == old(State()) && mark == Mark(|ledger|, |Numbered(ledger)|)
    {
      hide Tiles, Numbered;
      events, issues, eventsTruncated, omittedIssueCount := [], [], false, 0;
      diagnosed, mark := [], Mark(|ledger|, |Numbered(ledger)|);
      assert ledger[|ledger|..] == [];
    }

    /** Receives a chunk. The events of the chunk are returned; a framer that retains no history forgets
        them, and its diagnostics, afterwards. */
    method Feed(chunk: seq<byte>) returns (r: FeedOutcome)
      requires Valid()
      modifies this
      ensures Valid() && finished == old(finished)
      ensures old(finished) ==> r == AlreadyFinished && State() == old(State()) && events == old(events)
      ensures !old(finished) ==>
                && State() == FramingSpec.Feed(limits, old(State()), chunk)
                && bytesSeen == old(bytesSeen) + |chunk|
                && r.Emitted?
                && if limits.retainHistory then events == old(events) + r.events
                   else
                     && old(|Numbered(ledger)|) <= |Numbered(ledger)|
                     && r.events == Prefix(Numbered(ledger)[old(|Numbered(ledger)|)..], limits.maxEvents)
    {
      hide Tiles, IssuesOk, Diagnosed, Drain, Classify, FramingSpec.Feed, Numbered, Reports, Diagnoses, Noticed;
      if finished {
        return AlreadyFinished;
      }
      RoomLeft(limits, State());
      ghost var l, c, retained, truncated := ledger, State(), events, eventsTruncated;
      var before := |events|;
      Absorb(chunk);
      NumberedPrefix(l, ledger);
      EventsGrow(limits, l, ledger, mark.events, retained, events, truncated, eventsTruncated);
      r := Emitted(events[before..]);
      if !limits.retainHistory {
        ForgetHistory();
      }
    }

    /** Ends the stream; calling it again changes nothing. */
    method FinishStream() returns (r: FramingResult)
      requires Valid()
      modifies this
      ensures Valid() && finished
      ensures r == FramingResult(events, issues, bytesSeen, frameCount, ackCount, eventsTruncated, omittedIssueCount)
      ensures bytesSeen == old(bytesSeen) && mark == old(mark) && BufferedBytes() == []
      ensures State() == if old(finished) then old(State())
                         else FramingSpec.Finish(limits.maxDataLength, old(State()))
      ensures old(finished) ==> events == old(events) && issues == old(issues)
    {
      hide Tiles, EventsOk, Diagnosed, Drain, Classify, Noticed;
      if !finished {
        Process(true);
        finished := true;
      }
      assert exists b :: IssuesOk(limits, diagnosed, issues, omittedIssueCount, b, bytesSeen) by {
        assert IssuesOk(limits, diagnosed, issues, omittedIssueCount, old(finished), bytesSeen);
      }
      FinalizeOmittedIssues();
      r := FramingResult(events, issues, bytesSeen, frameCount, ackCount, eventsTruncated, omittedIssueCount);
    }

    /** Overwrites the last retained issue with a summary when issues were omitted. */
    method FinalizeOmittedIssues()
      requires exists before :: IssuesOk(limits, diagnosed, issues, omittedIssueCount, before, bytesSeen)
      modifies this`issues
      ensures IssuesOk(limits, diagnosed, issues, omittedIssueCount, true, bytesSeen)
    {
      if omittedIssueCount == 0 {
        return;
      }
      assert |issues| == limits.maxIssues;
      issues := issues[..|issues| - 1] + [LimitSummary(bytesSeen)];
    }
  }

  /** Frames one direction received in chunks and reports the bounded result. */
  method FrameChunks(limits: Limits, chunks: seq<seq<byte>>) returns (r: FramingResult)
    requires limits.Valid() && limits.retainHistory
    ensures var ledger := FinalLedger(limits, chunks);
            && r.bytesSeen == |Flatten(chunks)|
            && Tiles(ledger, 0, r.bytesSeen)
            && r.totalFrameCount == FrameCount(ledger)
            && r.totalAckCount == AckCount(ledger)
            && EventsOk(limits, ledger, 0, r.events, r.eventsTruncated)
            && (r.omittedIssueCount == 0 ==> Reports(r.issues) == Diagnoses(ledger))
            && |r.issues| + r.omittedIssueCount == |Diagnoses(ledger)| + (if r.eventsTruncated then 1 else 0)
            && |r.issues| <= limits.maxIssues && (0 < r.omittedIssueCount ==> |r.issues| == limits.maxIssues)
            && Summarised(r.issues, r.omittedIssueCount, r.bytesSeen, Diagnoses(ledger))
            && (forall i | 0 <= i < |r.issues| :: PreviewOk(limits, r.issues[i]))
    ensures var reference := ReferenceEvents(limits.maxDataLength, Flatten(chunks));
            && r.totalFrameCount == FrameCount(reference)
            && (!Theorems.Ambiguous(limits.maxDataLength, Flatten(chunks)) ==>
                  EventsOk(limits, reference, 0, r.events, r.eventsTruncated))
  {
    var framer := new RCHStreamFramer(limits);
    RoomLeft(limits, EMPTY_CORE);
    ghost var left := chunks;
    for i := 0 to |chunks|
      invariant framer.Valid() && !framer.finished && framer.limits == limits
      invariant left == chunks[i..]
      invariant HasRoom(limits, framer.State())
      invariant FeedAll(limits, framer.State(), left) == FeedAll(limits, EMPTY_CORE, chunks)
      invariant framer.bytesSeen + |Flatten(left)| == |Flatten(chunks)|
      invariant fresh(framer)
    {
      assert left[0] == chunks[i] && left[1..] == chunks[i + 1..];
      var _ := framer.Feed(chunks[i]);
      RoomLeft(limits, framer.State());
      left := left[1..];
    }
    r := framer.FinishStream();
    assert framer.ledger == FinalLedger(limits, chunks);
    SummaryLast(limits, framer.diagnosed, r.issues, r.omittedIssueCount, r.bytesSeen);
    ResultRefinesReference(limits, chunks, r.events, r.eventsTruncated);
    assert framer.ledger[0..] == framer.ledger;
  }

  /** Undamaged traffic that fits the event limit comes back record by record, in any segmentation, and without any
      issue. */
  method FrameUndamaged(limits: Limits, ghost units: seq<Unit>, chunks: seq<seq<byte>>) returns (r: FramingResult)
    requires Arrives(limits, units, chunks) && limits.retainHistory && |units| <= limits.maxEvents
    ensures r.issues == [] && !r.eventsTruncated && r.omittedIssueCount == 0
    ensures |r.events| == |units| && forall i | 0 <= i < |units| :: Delivers(r.events, units, i)
  {
    hide FinalLedger, Numbered, Diagnoses, Reports, Delivers, Tiles, Classify, ParseFrame, BuildFrame, ReferenceEvents;
    r := FrameChunks(limits, chunks);
    RoundTrip(limits, units, chunks);
    NothingToDiagnose(limits, units, chunks);
    NumberedLength(FinalLedger(limits, chunks));
    assert Numbered(FinalLedger(limits, chunks))[0..] == Numbered(FinalLedger(limits, chunks));
    forall i | 0 <= i < |units| ensures Delivers(r.events, units, i) {
      RoundTripRecords(limits, units, chunks, i);
    }
  }

  /** One byte damaged on the way changes one record, which says so, and gives exactly one issue, on that frame. */
  method FrameDamaged(limits: Limits, ghost units: seq<Unit>, ghost d: nat, ghost raw: RawFrame, ghost k: nat, chunks: seq<seq<byte>>)
    returns (r: FramingResult)
    requires ArrivesHit(limits, units, d, raw, k, chunks) && limits.retainHistory && |units| <= limits.maxEvents
    ensures |r.events| == |units| && !r.eventsTruncated
    ensures forall i | 0 <= i < |units| && i != d :: Delivers(r.events, units, i)
    ensures var e := r.events[d];
            && e.RCHFrame? && e.raw == raw && !e.bccValid
            && e.eventId == d + 1 && e.frameId == Transmissions(units[..d]) + 1
    ensures |r.issues| == 1 && r.omittedIssueCount == 0
    ensures Reports(r.issues) == [Gap(|Flatten(Pieces(limits.maxDataLength, units)[..d])|, InvalidBcc, |raw|)]
  {
    hide FinalLedger, Numbered, Diagnoses, Reports, Delivers, Tiles, Classify, ParseFrame, BuildFrame, ReferenceEvents, Damages, CaseVariant, Framed;
    r := FrameChunks(limits, chunks);
    HitDiagnosed(limits, units, d, raw, k, chunks);
    HitRecords(limits, units, d, raw, k, chunks, d);
    assert Numbered(FinalLedger(limits, chunks))[0..] == Numbered(FinalLedger(limits, chunks));
    forall i | 0 <= i < |units| && i != d ensures Delivers(r.events, units, i) {
      HitRecords(limits, units, d, raw, k, chunks, i);
    }
  }

  lemma {:induction false} NumberedLength(ledger: seq<Entry>)
    requires forall k | 0 <= k < |ledger| :: !ledger[k].Gap?
    ensures |Numbered(ledger)| == |ledger|
  {
    if ledger != [] {
      NumberedAt(ledger, 0);
    }
  }

  lemma ResultRefinesReference(lim: Limits, chunks: seq<seq<byte>>, events: seq<StreamEvent>, truncated: bool)
    requires lim.Valid() && EventsOk(lim, FinalLedger(lim, chunks), 0, events, truncated)
    ensures var reference := ReferenceEvents(lim.maxDataLength, Flatten(chunks));
            && FrameCount(FinalLedger(lim, chunks)) == FrameCount(reference)
            && (!Theorems.Ambiguous(lim.maxDataLength, Flatten(chunks)) ==>
                  EventsOk(lim, reference, 0, events, truncated))
  {
    hide FinalLedger, ReferenceEvents, Numbered, FrameCount;
    var ledger := FinalLedger(lim, chunks);
    var reference := ReferenceEvents(lim.maxDataLength, Flatten(chunks));
    Theorems.EventsFollowReference(lim, chunks);
    NumberedOfEvents(ledger);
    FrameCountOfFrames(Events(ledger));
    FrameCountOfFrames(reference);
  }

  lemma {:induction false} FrameCountOfFrames(events: seq<Entry>)
    ensures FrameCount(events) == |Theorems.Frames(events)|
  {
    if events != [] {
      FrameCountOfFrames(events[..|events| - 1]);
    }
  }

  lemma SliceRest(chunk: seq<byte>, position: nat, count: nat)
    requires position + count <= |chunk|
    ensures chunk[position..][..count] == chunk[position..position + count]
    ensures chunk[position..][count..] == chunk[position + count..]
  {
  }

  lemma RoomLeft(lim: Limits, c: Core)
    requires lim.Valid() && !CanAdvance(lim.maxDataLength, c)
    ensures HasRoom(lim, c)
  {
    if c.pending != [] {
      WaitingIsShort(lim.maxDataLength, c.pending);
    }
  }

  lemma DrainStep(m: nat, c: Core)
    ensures Drain(m, c) == if CanAdvance(m, c) then Drain(m, Advance(m, c)) else c
  {
  }

  lemma AckAtFront(m: nat, c: Core)
    requires c.pending != [] && Classify(m, c.pending, 0).Acknowledge?
    ensures c.pending[0] == ACK && NextEntry(m, c) == AckAt(c.offset)
  {
  }

  lemma AcceptFits(m: nat, c: Core)
    requires c.pending != [] && Classify(m, c.pending, 0).Accept?
    ensures var n := Classify(m, c.pending, 0).size;
            FRAME_OVERHEAD <= n <= |c.pending| && NextEntry(m, c) == FrameAt(c.offset, c.pending[..n])
  {
  }
}
