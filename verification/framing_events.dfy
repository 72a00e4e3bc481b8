/** The event records handed to callers, and how they number the ledger. */
module FramingEvents {
  import opened RchBytes
  import opened FramingSpec

  datatype StreamEvent =
    | AckEvent(eventId: nat, streamOffset: nat)
    | RCHFrame(
        eventId: nat,
        frameId: nat,
        streamOffset: nat,
        raw: RawFrame,
        address: seq<byte>,
        dataLength: nat,
        frameClass: byte,
        data: seq<byte>,
        sequence: byte,
        bcc: seq<byte>,
        expectedBcc: seq<byte>,
        bccValid: bool)

  /** The BCC characters, compared without regard to hexadecimal case. */
  predicate BccMatches(bcc: seq<byte>, expected: seq<byte>)
    requires |bcc| == 2 && |expected| == 2
  {
    && (forall i | 0 <= i < 2 :: IsHexDigit(bcc[i]))
    && (forall i | 0 <= i < 2 :: UpperHex(bcc[i]) == expected[i])
  }

  function ParseFrame(eventId: nat, frameId: nat, offset: nat, raw: RawFrame): (e: StreamEvent)
    ensures e.eventId == eventId && e.streamOffset == offset
  {
    var n := |raw| - FRAME_OVERHEAD;
    var bcc := raw[n + 8..n + 10];
    var expected := HexPair(Xor(raw[..n + 8]));
    RCHFrame(eventId, frameId, offset, raw, raw[1..3], n, raw[6], raw[7..7 + n], raw[7 + n],
             bcc, expected, BccMatches(bcc, expected))
  }

  function FrameCount(ledger: seq<Entry>): nat {
    if ledger == [] then 0
    else FrameCount(ledger[..|ledger| - 1]) + if ledger[|ledger| - 1].FrameAt? then 1 else 0
  }

  function AckCount(ledger: seq<Entry>): nat {
    if ledger == [] then 0
    else AckCount(ledger[..|ledger| - 1]) + if ledger[|ledger| - 1].AckAt? then 1 else 0
  }

  /** All events of a ledger with their running event and frame numbers. */
  function Numbered(ledger: seq<Entry>): (r: seq<StreamEvent>)
    ensures |r| == FrameCount(ledger) + AckCount(ledger)
  {
    if ledger == [] then []
    else
      var before := ledger[..|ledger| - 1];
      var events := Numbered(before);
      match ledger[|ledger| - 1]
      case AckAt(offset) => events + [AckEvent(|events| + 1, offset)]
      case FrameAt(offset, raw) => events + [ParseFrame(|events| + 1, FrameCount(before) + 1, offset, raw)]
      case Gap(_, _, _) => events
  }

  lemma NumberedAppend(ledger: seq<Entry>, e: Entry)
    ensures FrameCount(ledger + [e]) == FrameCount(ledger) + if e.FrameAt? then 1 else 0
    ensures AckCount(ledger + [e]) == AckCount(ledger) + if e.AckAt? then 1 else 0
    ensures Numbered(ledger + [e]) == Numbered(ledger) +
              match e
              case AckAt(offset) => [AckEvent(|Numbered(ledger)| + 1, offset)]
              case FrameAt(offset, raw) =>
                [ParseFrame(|Numbered(ledger)| + 1, FrameCount(ledger) + 1, offset, raw)]
              case Gap(_, _, _) => []
  {
    hide ParseFrame;
    assert (ledger + [e])[..|ledger|] == ledger;
  }

  /** Numbering sees only the events, so streams with equal events get equal records. */
  lemma {:induction false} NumberedOfEvents(ledger: seq<Entry>)
    ensures Numbered(Events(ledger)) == Numbered(ledger)
    ensures FrameCount(Events(ledger)) == FrameCount(ledger)
    ensures AckCount(Events(ledger)) == AckCount(ledger)
  {
    if ledger != [] {
      var before := ledger[..|ledger| - 1];
      assert ledger == before + [ledger[|ledger| - 1]];
      NumberedOfEvents(before);
      NumberedOfAppend(before, ledger[|ledger| - 1]);
    }
  }

  lemma NumberedOfAppend(ledger: seq<Entry>, e: Entry)
    requires Numbered(Events(ledger)) == Numbered(ledger)
    requires FrameCount(Events(ledger)) == FrameCount(ledger) && AckCount(Events(ledger)) == AckCount(ledger)
    ensures Numbered(Events(ledger + [e])) == Numbered(ledger + [e])
    ensures FrameCount(Events(ledger + [e])) == FrameCount(ledger + [e])
    ensures AckCount(Events(ledger + [e])) == AckCount(ledger + [e])
  {
    hide ParseFrame, Numbered, FrameCount, AckCount, Events;
    NumberedAppend(ledger, e);
    EventsAppend(ledger, e);
    if e.Gap? {
      assert Events(ledger) + [] == Events(ledger);
    } else {
      NumberedAppend(Events(ledger), e);
    }
  }

  lemma {:induction false} NumberedPrefix(shorter: seq<Entry>, longer: seq<Entry>)
    requires shorter <= longer
    ensures Numbered(shorter) <= Numbered(longer)
    decreases |longer|
  {
    if |shorter| < |longer| {
      hide ParseFrame;
      NumberedPrefix(shorter, longer[..|longer| - 1]);
    } else {
      assert shorter == longer;
    }
  }
}
