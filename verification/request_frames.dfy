/** From request bytes to the frames receipt assembly scans; the classification of payloads is a parameter. */
module RequestFrames {
  import opened Options
  import opened RchBytes
  import opened FramingSpec
  import opened FramingEvents
  import opened ReceiptModel
  import opened ReceiptInvariant
  import opened FramingRoundTrip
  import ReceiptTheorems

  function Latin1(bytes: seq<byte>): (s: string)
    ensures |s| == |bytes|
  {
    seq(|bytes|, i requires 0 <= i < |bytes| => bytes[i] as char)
  }

  function Classified(e: StreamEvent, classify: string -> Command): Frame
    requires e.RCHFrame?
  {
    Frame(e.frameId, e.streamOffset, e.streamOffset + |e.raw|, e.bccValid, Latin1(e.address), e.frameClass as char,
          [e.sequence as char], classify(Latin1(e.data)))
  }

  /** The frames among the retained events, in stream order. */
  function FramesOf(events: seq<StreamEvent>, classify: string -> Command): seq<Frame> {
    if events == [] then []
    else
      var e := events[|events| - 1];
      FramesOf(events[..|events| - 1], classify) + if e.RCHFrame? then [Classified(e, classify)] else []
  }

  /** Frame ids count the frames of the stream, so they rise in every retained prefix of its events. */
  lemma {:induction false} FrameIdsRise(ledger: seq<Entry>, events: seq<StreamEvent>, classify: string -> Command)
    requires events <= FramingEvents.Numbered(ledger)
    ensures IdsRise(FramesOf(events, classify))
    ensures forall i | 0 <= i < |FramesOf(events, classify)| :: FramesOf(events, classify)[i].frameId <= FrameCount(ledger)
    decreases |ledger|
  {
    if ledger != [] {
      var before, last := ledger[..|ledger| - 1], ledger[|ledger| - 1];
      assert ledger == before + [last];
      NumberedAppend(before, last);
      var earlier := FramingEvents.Numbered(before);
      if events <= earlier {
        FrameIdsRise(before, events, classify);
      } else {
        assert |events| == |earlier| + 1 && events[..|earlier|] == earlier;
        FrameIdsRise(before, earlier, classify);
      }
    }
  }

  /** For every request byte stream and every classification of its payloads, the receipts assembled from the framed
      events own disjoint frames in rising order and never exceed the semantic budget. */
  lemma ReceiptsOfStream(lim: Limits, chunks: seq<seq<byte>>, events: seq<StreamEvent>, classify: string -> Command, max: nat, limit: nat)
    requires lim.Valid()
    requires events <= FramingEvents.Numbered(FinalLedger(lim, chunks))
    ensures var a := Assemble(FramesOf(events, classify), max, limit);
            && a.budget.used <= limit
            && a.budget.used == DocumentFields(a.documents) + BuilderFields(a.omitted)
            && forall i, k | 0 <= i < k < |a.documents| :: Apart(a.documents[i].frames, a.documents[k].frames)
  {
    hide Assemble, FinalLedger, Apart;
    FrameIdsRise(FinalLedger(lim, chunks), events, classify);
    ReceiptTheorems.BudgetConserved(FramesOf(events, classify), max, limit);
    ReceiptTheorems.DocumentsOwnDisjointFrames(FramesOf(events, classify), max, limit);
  }

  function FramesAmong(events: seq<StreamEvent>): nat {
    if events == [] then 0 else FramesAmong(events[..|events| - 1]) + if events[|events| - 1].RCHFrame? then 1 else 0
  }

  lemma {:induction false} FramesOfAt(events: seq<StreamEvent>, classify: string -> Command, k: nat)
    requires k < |events| && events[k].RCHFrame?
    ensures |FramesOf(events, classify)| == FramesAmong(events)
    ensures FramesAmong(events[..k]) < |FramesOf(events, classify)|
    ensures FramesOf(events, classify)[FramesAmong(events[..k])] == Classified(events[k], classify)
    decreases |events|
  {
    hide Classified;
    var n := |events| - 1;
    FramesCount(events[..n], classify);
    if k < n {
      FramesOfAt(events[..n], classify, k);
      assert events[..n][..k] == events[..k];
    }
  }

  lemma {:induction false} FramesCount(events: seq<StreamEvent>, classify: string -> Command)
    ensures |FramesOf(events, classify)| == FramesAmong(events)
  {
    if events != [] {
      FramesCount(events[..|events| - 1], classify);
    }
  }

  lemma {:induction false} AmongTransmissions(events: seq<StreamEvent>, units: seq<Unit>)
    requires |events| == |units| && forall i | 0 <= i < |units| :: events[i].RCHFrame? == units[i].Transmission?
    ensures FramesAmong(events) == Transmissions(units)
  {
    if units != [] {
      AmongTransmissions(events[..|events| - 1], units[..|units| - 1]);
    }
  }

  /** The frame that assembly sees for a transmission: its number among the transmissions, its place in the stream, its
      header as text and the classification of its data as text. */
  predicate Seen(f: Frame, fields: FrameFields, number: nat, offset: nat, classify: string -> Command)
    requires Buildable(fields)
  {
    && f.frameId == number && f.streamOffset == offset && f.endOffset == offset + |fields.data| + FRAME_OVERHEAD
    && f.bccValid && f.address == Latin1(fields.address) && f.frameClass == fields.frameClass[0] as char
    && f.sequence == Latin1(fields.sequence) && f.command == classify(Latin1(fields.data))
  }

  /** What a ledger with one entry for each unit gives assembly for the transmission k. */
  lemma LedgerReachesAssembly(ledger: seq<Entry>, units: seq<Unit>, classify: string -> Command, k: nat)
    requires |ledger| == |units| && k < |units| && units[k].Transmission? && Buildable(units[k].fields)
    requires forall i | 0 <= i < |units| :: !ledger[i].Gap? && ledger[i].FrameAt? == units[i].Transmission?
    requires ledger[k].raw == BuildFrame(units[k].fields).value
    ensures var frames, n := FramesOf(FramingEvents.Numbered(ledger), classify), Transmissions(units[..k]);
            && |frames| == Transmissions(units) && n < |frames|
            && Seen(frames[n], units[k].fields, n + 1, ledger[k].offset, classify)
  {
    hide FramingEvents.Numbered, BuildFrame, ParseFrame, FramesOf, FramesAmong, Transmissions, FrameCount, Seen, Classified;
    var events := FramingEvents.Numbered(ledger);
    EventKinds(ledger, units, k);
    NumberedAt(ledger, k);
    FramesCounted(ledger, units, k);
    FramesOfAt(events, classify, k);
    AmongTransmissions(events, units);
    AmongTransmissions(events[..k], units[..k]);
    SeenFrame(units[k].fields, k + 1, Transmissions(units[..k]) + 1, ledger[k].offset, classify);
  }

  /** Undamaged traffic reaches assembly frame by frame, under every segmentation. */
  lemma TrafficReachesAssembly(lim: Limits, units: seq<Unit>, chunks: seq<seq<byte>>, classify: string -> Command, k: nat)
    requires Arrives(lim, units, chunks) && k < |units| && units[k].Transmission?
    ensures var frames, n := FramesOf(FramingEvents.Numbered(FinalLedger(lim, chunks)), classify), Transmissions(units[..k]);
            && |frames| == Transmissions(units) && n < |frames|
            && Seen(frames[n], units[k].fields, n + 1, |Flatten(Pieces(lim.maxDataLength, units)[..k])|, classify)
  {
    hide FinalLedger, Flatten, FramingEvents.Numbered, BuildFrame, Pieces, FramesOf, Transmissions, Seen;
    RoundTrip(lim, units, chunks);
    LedgerReachesAssembly(FinalLedger(lim, chunks), units, classify, k);
  }

  lemma EventKinds(ledger: seq<Entry>, units: seq<Unit>, k: nat)
    requires |ledger| == |units| && k < |units|
    requires forall i | 0 <= i < |units| :: !ledger[i].Gap? && ledger[i].FrameAt? == units[i].Transmission?
    ensures var events := FramingEvents.Numbered(ledger);
            |events| == |units| && forall i | 0 <= i < |units| :: events[i].RCHFrame? == units[i].Transmission?
  {
    hide FramingEvents.Numbered, ParseFrame, FrameCount;
    NumberedAt(ledger, k);
    forall i | 0 <= i < |units| ensures FramingEvents.Numbered(ledger)[i].RCHFrame? == units[i].Transmission? {
      NumberedAt(ledger, i);
      ParsedIsFrame(i + 1, FrameCount(ledger[..i]) + 1, ledger[i]);
    }
  }

  lemma ParsedIsFrame(eventId: nat, frameId: nat, e: Entry)
    ensures e.FrameAt? ==> ParseFrame(eventId, frameId, e.offset, e.raw).RCHFrame?
  {
  }

  lemma SeenFrame(fields: FrameFields, eventId: nat, frameId: nat, offset: nat, classify: string -> Command)
    requires Buildable(fields)
    ensures var e := ParseFrame(eventId, frameId, offset, BuildFrame(fields).value);
            e.RCHFrame? && Seen(Classified(e, classify), fields, frameId, offset, classify)
  {
    hide BuildFrame;
    var raw := BuildFrame(fields).value;
    var e := ParseFrame(eventId, frameId, offset, raw);
    ParseInvertsBuild(fields, eventId, frameId, offset);
    ParseKeepsIds(eventId, frameId, offset, raw);
    assert e.raw == raw;
    hide ParseFrame;
    assert fields.sequence == [e.sequence];
    assert Latin1(fields.sequence) == [e.sequence as char];
  }
}
