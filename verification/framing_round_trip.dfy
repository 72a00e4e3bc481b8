/** Well-formed traffic survives framing: whatever is built comes back, under every segmentation. */
module FramingRoundTrip {
  import opened Options
  import opened RchBytes
  import opened FramingSpec
  import opened FramingRefinement
  import opened FramingTheorems
  import opened FramingEvents

  datatype FrameFields = FrameFields(address: seq<byte>, frameClass: seq<byte>, data: seq<byte>, sequence: seq<byte>)

  /** The argument checks of build_frame. */
  predicate Buildable(f: FrameFields) {
    && |f.address| == 2 && IsDigit(f.address[0]) && IsDigit(f.address[1])
    && |f.frameClass| == 1
    && |f.sequence| == 1
    && |f.data| <= 999
  }

  function LengthDigits(n: nat): (r: seq<byte>)
    requires n <= 999
    ensures |r| == 3 && forall i | 0 <= i < 3 :: IsDigit(r[i])
    ensures 100 * DigitValue(r[0]) + 10 * DigitValue(r[1]) + DigitValue(r[2]) == n
  {
    [DigitChar(n / 100), DigitChar(n / 10 % 10), DigitChar(n % 10)]
  }

  function FramePrefix(f: FrameFields): seq<byte>
    requires Buildable(f)
  {
    [STX] + f.address + LengthDigits(|f.data|) + f.frameClass + f.data + f.sequence
  }

  /** None when build_frame raises. */
  function BuildFrame(f: FrameFields): (r: Option<RawFrame>)
    ensures r.Some? <==> Buildable(f)
  {
    if Buildable(f) then
      var prefix := FramePrefix(f);
      Some(prefix + HexPair(Xor(prefix)) + [ETX])
    else None
  }

  // ---------------------------------------------------------------- what framing keeps together

  /** An acknowledgement, or bytes that have the shape of a frame of at most m data bytes, whatever their BCC. */
  predicate Framed(m: nat, piece: seq<byte>) {
    piece == [ACK] ||
    (&& FRAME_OVERHEAD <= |piece|
     && piece[0] == STX && HeaderDigits(piece, 0)
     && DeclaredLength(piece, 0) <= m && |piece| == DeclaredLength(piece, 0) + FRAME_OVERHEAD
     && piece[|piece| - 1] == ETX)
  }

  predicate AllFramed(m: nat, pieces: seq<seq<byte>>) {
    forall i | 0 <= i < |pieces| :: Framed(m, pieces[i])
  }

  function PieceEntry(m: nat, piece: seq<byte>, offset: nat): (e: Entry)
    requires Framed(m, piece)
    ensures e.offset == offset && e.Width() == |piece| && 0 < |piece| && !e.Gap?
  {
    if piece == [ACK] then AckAt(offset) else FrameAt(offset, piece)
  }

  /** The ledger of a stream of such pieces. */
  function Expected(m: nat, pieces: seq<seq<byte>>, offset: nat): (r: seq<Entry>)
    requires AllFramed(m, pieces)
    ensures |r| == |pieces|
  {
    if pieces == [] then []
    else [PieceEntry(m, pieces[0], offset)] + Expected(m, pieces[1..], offset + |pieces[0]|)
  }

  // ---------------------------------------------------------------- one frame

  /** A parsed record that carries exactly these fields, with a valid BCC. */
  predicate Carries(e: StreamEvent, f: FrameFields)
    requires Buildable(f)
  {
    && e.RCHFrame?
    && e.address == f.address
    && [e.frameClass] == f.frameClass
    && e.dataLength == |f.data| && e.data == f.data
    && [e.sequence] == f.sequence
    && e.bccValid
  }

  lemma ParseInvertsBuild(f: FrameFields, eventId: nat, frameId: nat, offset: nat)
    requires Buildable(f)
    ensures var raw := BuildFrame(f).value;
            && |raw| == |f.data| + FRAME_OVERHEAD
            && Carries(ParseFrame(eventId, frameId, offset, raw), f)
  {
    hide Xor, HexPair;
    var raw := BuildFrame(f).value;
    var n := |f.data|;
    var prefix := FramePrefix(f);
    assert |prefix| == n + 8;
    assert raw[..n + 8] == prefix;
    assert raw[n + 8..n + 10] == HexPair(Xor(prefix));
    assert raw[1..3] == f.address;
    assert raw[7..7 + n] == f.data;
    assert raw[6] == f.frameClass[0] && raw[7 + n] == f.sequence[0];
  }

  /** What is built has the shape of a frame. */
  lemma BuiltIsFramed(m: nat, f: FrameFields)
    requires Buildable(f) && |f.data| <= m
    ensures Framed(m, BuildFrame(f).value)
  {
    var raw := BuildFrame(f).value;
    var digits := LengthDigits(|f.data|);
    assert raw[3] == digits[0] && raw[4] == digits[1] && raw[5] == digits[2];
    assert raw[1] == f.address[0] && raw[2] == f.address[1];
    assert HeaderDigits(raw, 0);
  }

  lemma FrameAccepted(m: nat, t: seq<byte>, p: nat, piece: seq<byte>)
    requires Framed(m, piece) && piece != [ACK]
    requires p <= |t| && piece <= t[p..]
    ensures p < |t| && Classify(m, t, p) == Accept(|piece|)
  {
    assert forall i | 0 <= i < |piece| :: t[p + i] == t[p..][i] == piece[i];
    assert t[p + 3] == piece[3] && t[p + 4] == piece[4] && t[p + 5] == piece[5];
    assert HeaderDigits(t, p) by {
      forall i | p < i < p + 6 ensures IsDigit(t[i]) {
        assert t[i] == piece[i - p];
      }
    }
    assert DeclaredLength(t, p) == DeclaredLength(piece, 0);
    assert t[p] == piece[0] && t[p + |piece| - 1] == piece[|piece| - 1];
  }

  lemma AckAccepted(m: nat, t: seq<byte>, p: nat)
    requires p < |t| && t[p] == ACK
    ensures Classify(m, t, p) == Acknowledge
  {
  }

  /** The reference scanner takes a whole piece at once. */
  lemma PieceRead(m: nat, t: seq<byte>, p: nat, piece: seq<byte>)
    requires Framed(m, piece) && p <= |t| && piece <= t[p..]
    ensures p + |piece| <= |t|
    ensures Reference(m, t, p, false) == Reference(m, t, p + |piece|, false).After(PieceEntry(m, piece, p))
  {
    hide Classify;
    var n := |piece|;
    assert t[p..p + n] == t[p..][..n] == piece;
    if piece == [ACK] {
      assert t[p] == t[p..][0];
      AckAccepted(m, t, p);
    } else {
      FrameAccepted(m, t, p, piece);
    }
  }

  // ---------------------------------------------------------------- whole streams

  /** The reference scanner reads back exactly the pieces and reaches the end. */
  lemma {:induction false} ReferenceReadsBack(m: nat, t: seq<byte>, p: nat, pieces: seq<seq<byte>>)
    requires AllFramed(m, pieces) && p <= |t| && t[p..] == Flatten(pieces)
    ensures Reference(m, t, p, false) == Outcome(Expected(m, pieces, p), |t|, false)
    decreases |pieces|
  {
    hide Classify, Framed, PieceEntry;
    if pieces != [] {
      var n := |pieces[0]|;
      PieceRead(m, t, p, pieces[0]);
      assert t[p + n..] == t[p..][n..] == Flatten(pieces[1..]);
      ReferenceReadsBack(m, t, p + n, pieces[1..]);
    }
  }

  function WidthSum(ledger: seq<Entry>): nat {
    if ledger == [] then 0 else WidthSum(ledger[..|ledger| - 1]) + ledger[|ledger| - 1].Width()
  }

  lemma {:induction false} TilesWidth(ledger: seq<Entry>, start: nat, end: nat)
    requires Tiles(ledger, start, end)
    ensures start <= end && WidthSum(ledger) == end - start
  {
    if ledger != [] {
      TilesWidth(ledger[..|ledger| - 1], start, ledger[|ledger| - 1].offset);
    }
  }

  lemma WidthSumAppend(ledger: seq<Entry>, e: Entry)
    ensures WidthSum(ledger + [e]) == WidthSum(ledger) + e.Width()
  {
    assert (ledger + [e])[..|ledger|] == ledger;
  }

  /** Events that account for every byte leave no room for a rejected range. */
  lemma {:induction false} NoRoomForGaps(ledger: seq<Entry>, start: nat, end: nat)
    requires Tiles(ledger, start, end)
    ensures WidthSum(Events(ledger)) <= WidthSum(ledger)
    ensures WidthSum(Events(ledger)) == WidthSum(ledger) ==> Events(ledger) == ledger
  {
    if ledger != [] {
      var before := ledger[..|ledger| - 1];
      var last := ledger[|ledger| - 1];
      NoRoomForGaps(before, start, last.offset);
      assert ledger == before + [last];
      hide Tiles, WidthSum, Events;
      EventsAppend(before, last);
      WidthSumAppend(before, last);
      WidthSumAppend(Events(before), last);
      assert Events(before) + [] == Events(before);
    }
  }

  lemma {:induction false} WidthSumPrepend(e: Entry, ledger: seq<Entry>)
    ensures WidthSum([e] + ledger) == e.Width() + WidthSum(ledger)
    decreases |ledger|
  {
    var whole := [e] + ledger;
    if ledger == [] {
      assert whole[..0] == [];
    } else {
      assert whole[..|ledger|] == [e] + ledger[..|ledger| - 1];
      WidthSumPrepend(e, ledger[..|ledger| - 1]);
    }
  }

  lemma {:induction false} ExpectedWidth(m: nat, pieces: seq<seq<byte>>, offset: nat)
    requires AllFramed(m, pieces)
    ensures WidthSum(Expected(m, pieces, offset)) == |Flatten(pieces)|
    decreases |pieces|
  {
    hide Framed, PieceEntry, WidthSum;
    if pieces == [] {
      NoWidth();
    } else {
      var n, entry := |pieces[0]|, PieceEntry(m, pieces[0], offset);
      ExpectedWidth(m, pieces[1..], offset + n);
      WidthSumPrepend(entry, Expected(m, pieces[1..], offset + n));
    }
  }

  lemma NoWidth()
    ensures WidthSum([]) == 0
  {
  }

  /** Pieces of the right shape are recovered one by one, with no rejected range, however the stream is cut. */
  lemma PiecesReadBack(lim: Limits, pieces: seq<seq<byte>>, chunks: seq<seq<byte>>)
    requires lim.Valid() && AllFramed(lim.maxDataLength, pieces) && Flatten(chunks) == Flatten(pieces)
    ensures FinalLedger(lim, chunks) == Expected(lim.maxDataLength, pieces, 0)
  {
    hide AllFramed, Expected, WidthSum, Reference;
    var m := lim.maxDataLength;
    var t := Flatten(chunks);
    assert t[0..] == t;
    ReferenceReadsBack(m, t, 0, pieces);
    EventsFollowReference(lim, chunks);
    NotAmbiguous(m, t);
    var ledger := FinalLedger(lim, chunks);
    FeedAllTiles(lim, EMPTY_CORE, chunks);
    FinishTiles(m, FeedAll(lim, EMPTY_CORE, chunks));
    FeedAllSees(lim, EMPTY_CORE, chunks);
    TilesWidth(ledger, 0, |t|);
    NoRoomForGaps(ledger, 0, |t|);
    ExpectedWidth(m, pieces, 0);
  }

  lemma NotAmbiguous(m: nat, t: seq<byte>)
    requires Reference(m, t, 0, false).end == |t|
    ensures !Ambiguous(m, t)
  {
  }

  lemma {:induction false} FeedAllSees(lim: Limits, c: Core, chunks: seq<seq<byte>>)
    requires lim.Valid() && HasRoom(lim, c)
    ensures var r := FeedAll(lim, c, chunks);
            r.offset + |r.pending| == c.offset + |c.pending| + |Flatten(chunks)|
    decreases |chunks|
  {
    if chunks != [] {
      FeedAllSees(lim, Feed(lim, c, chunks[0]), chunks[1..]);
    }
  }

  /** Each piece becomes one entry at the place where it was sent. */
  lemma {:induction false} ExpectedAt(m: nat, pieces: seq<seq<byte>>, offset: nat, i: nat)
    requires AllFramed(m, pieces) && i < |pieces|
    ensures Expected(m, pieces, offset)[i] == PieceEntry(m, pieces[i], offset + |Flatten(pieces[..i])|)
    decreases i
  {
    hide Framed;
    if i > 0 {
      ExpectedAt(m, pieces[1..], offset + |pieces[0]|, i - 1);
      assert pieces[..i][1..] == pieces[1..][..i - 1];
    }
  }

  lemma {:induction false} NumberedAt(ledger: seq<Entry>, i: nat)
    requires i < |ledger| && forall k | 0 <= k < |ledger| :: !ledger[k].Gap?
    ensures |Numbered(ledger)| == |ledger|
    ensures match ledger[i]
            case AckAt(offset) => Numbered(ledger)[i] == AckEvent(i + 1, offset)
            case FrameAt(offset, raw) =>
              Numbered(ledger)[i] == ParseFrame(i + 1, FrameCount(ledger[..i]) + 1, offset, raw)
            case Gap(_, _, _) => true
    decreases |ledger|
  {
    hide ParseFrame;
    var n := |ledger| - 1;
    var before := ledger[..n];
    if n > 0 {
      NumberedAt(before, if i < n then i else 0);
      if i < n {
        assert before[..i] == ledger[..i];
      }
    }
  }

  // ---------------------------------------------------------------- built traffic

  datatype Unit = Acknowledgement | Transmission(fields: FrameFields)

  /** Everything the peer can send within the framer's data limit. */
  predicate Sendable(m: nat, units: seq<Unit>) {
    forall i | 0 <= i < |units| ::
      units[i].Transmission? ==> BuildFrame(units[i].fields).Some? && |units[i].fields.data| <= m
  }

  function UnitBytes(u: Unit): (r: seq<byte>)
    requires u.Transmission? ==> BuildFrame(u.fields).Some?
    ensures 0 < |r|
  {
    if u.Acknowledgement? then [ACK] else BuildFrame(u.fields).value
  }

  function Pieces(m: nat, units: seq<Unit>): (r: seq<seq<byte>>)
    requires Sendable(m, units)
    ensures |r| == |units| && forall i | 0 <= i < |units| :: r[i] == UnitBytes(units[i])
  {
    seq(|units|, i requires 0 <= i < |units| => UnitBytes(units[i]))
  }

  lemma PiecesAreFramed(m: nat, units: seq<Unit>)
    requires Sendable(m, units)
    ensures AllFramed(m, Pieces(m, units))
  {
    hide BuildFrame, Framed;
    forall i | 0 <= i < |units| ensures Framed(m, UnitBytes(units[i])) {
      UnitIsFramed(m, units[i]);
    }
  }

  lemma UnitIsFramed(m: nat, u: Unit)
    requires u.Transmission? ==> BuildFrame(u.fields).Some? && |u.fields.data| <= m
    ensures Framed(m, UnitBytes(u))
    ensures u.Transmission? ==> UnitBytes(u) != [ACK]
  {
    if u.Transmission? {
      BuiltIsFramed(m, u.fields);
    }
  }

  /** The chunks are some segmentation of what the peer sent. */
  predicate Arrives(lim: Limits, units: seq<Unit>, chunks: seq<seq<byte>>) {
    lim.Valid() && Sendable(lim.maxDataLength, units) && Flatten(chunks) == Flatten(Pieces(lim.maxDataLength, units))
  }

  function UnitEntry(u: Unit, offset: nat): Entry
    requires u.Transmission? ==> BuildFrame(u.fields).Some?
  {
    if u.Acknowledgement? then AckAt(offset) else FrameAt(offset, BuildFrame(u.fields).value)
  }

  /** Round trip: undamaged traffic is recovered unit by unit at its place in the stream, with no rejected range,
      however it is cut into chunks. */
  lemma RoundTrip(lim: Limits, units: seq<Unit>, chunks: seq<seq<byte>>)
    requires Arrives(lim, units, chunks)
    ensures var ledger, pieces := FinalLedger(lim, chunks), Pieces(lim.maxDataLength, units);
            && |ledger| == |units|
            && forall k | 0 <= k < |units| :: ledger[k] == UnitEntry(units[k], |Flatten(pieces[..k])|)
  {
    hide BuildFrame, Framed, AllFramed, FinalLedger, Expected, Flatten;
    var m := lim.maxDataLength;
    var pieces := Pieces(m, units);
    PiecesAreFramed(m, units);
    PiecesReadBack(lim, pieces, chunks);
    forall k | 0 <= k < |units| ensures Expected(m, pieces, 0)[k] == UnitEntry(units[k], |Flatten(pieces[..k])|) {
      ExpectedAt(m, pieces, 0, k);
      UnitIsFramed(m, units[k]);
    }
  }

  /** How many of the units are frames. */
  function Transmissions(units: seq<Unit>): nat {
    if units == [] then 0 else Transmissions(units[..|units| - 1]) + if units[|units| - 1].Transmission? then 1 else 0
  }

  lemma {:induction false} FramesCounted(ledger: seq<Entry>, units: seq<Unit>, i: nat)
    requires |ledger| == |units| && i <= |units|
    requires forall k | 0 <= k < |units| :: ledger[k].FrameAt? == units[k].Transmission?
    ensures FrameCount(ledger[..i]) == Transmissions(units[..i])
  {
    if i > 0 {
      FramesCounted(ledger, units, i - 1);
      assert ledger[..i][..i - 1] == ledger[..i - 1] && units[..i][..i - 1] == units[..i - 1];
    }
  }

  /** One record per unit, and record i is unit i: an acknowledgement, or a frame with its very fields that is
      numbered by the frames sent so far. */
  predicate Delivers(events: seq<StreamEvent>, units: seq<Unit>, i: nat)
    requires i < |units| && (units[i].Transmission? ==> Buildable(units[i].fields))
  {
    && |events| == |units|
    && events[i].eventId == i + 1
    && (if units[i].Acknowledgement? then events[i].AckEvent?
        else Carries(events[i], units[i].fields) && events[i].frameId == Transmissions(units[..i]) + 1)
  }

  /** The records of an undamaged stream carry the fields that were sent, all with valid BCC. */
  lemma RoundTripRecords(lim: Limits, units: seq<Unit>, chunks: seq<seq<byte>>, i: nat)
    requires Arrives(lim, units, chunks)
    requires i < |units|
    ensures Delivers(Numbered(FinalLedger(lim, chunks)), units, i)
  {
    hide BuildFrame, FinalLedger, Pieces, Flatten;
    RoundTrip(lim, units, chunks);
    RecordDelivers(FinalLedger(lim, chunks), units, i);
  }

  /** An entry that is what unit i sent gives the record of unit i, whatever the other frames hold. */
  lemma RecordDelivers(ledger: seq<Entry>, units: seq<Unit>, i: nat)
    requires |ledger| == |units| && i < |units|
    requires forall k | 0 <= k < |units| :: !ledger[k].Gap? && ledger[k].FrameAt? == units[k].Transmission?
    requires units[i].Transmission? ==> Buildable(units[i].fields) && ledger[i].raw == BuildFrame(units[i].fields).value
    ensures Delivers(Numbered(ledger), units, i)
  {
    hide ParseFrame, BuildFrame, Numbered, BccMatches, FrameCount, Transmissions;
    NumberedAt(ledger, i);
    FramesCounted(ledger, units, i);
    if units[i].Transmission? {
      ParseInvertsBuild(units[i].fields, i + 1, FrameCount(ledger[..i]) + 1, ledger[i].offset);
      ParseKeepsIds(i + 1, FrameCount(ledger[..i]) + 1, ledger[i].offset, ledger[i].raw);
    }
  }

  lemma ParseKeepsIds(eventId: nat, frameId: nat, offset: nat, raw: RawFrame)
    ensures ParseFrame(eventId, frameId, offset, raw).frameId == frameId
  {
  }
}
