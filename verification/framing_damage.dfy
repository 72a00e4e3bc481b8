/** What the BCC detects: one damaged byte is always noticed, on the one frame it hit and nowhere else. A frame is valid
    exactly if its BCC characters spell the XOR of the bytes before them; damage before the BCC goes unnoticed exactly
    if its changes cancel out. */
module FramingDamage {
  import opened Options
  import opened RchBytes
  import opened ByteXor
  import opened FramingSpec
  import opened FramingEvents
  import opened FramingRoundTrip
  import opened FramerRecords

  // ---------------------------------------------------------------- the verdict

  /** The value of a hexadecimal digit of either case. */
  function HexValue(b: byte): (v: nat)
    requires IsHexDigit(b)
    ensures v < 16
  {
    if IsDigit(b) then b - 48 else if b < 97 then b - 55 else b - 87
  }

  /** The number the two BCC characters spell. */
  function Spelled(bcc: seq<byte>): Option<nat>
    requires |bcc| == 2
  {
    if IsHexDigit(bcc[0]) && IsHexDigit(bcc[1]) then Some(16 * HexValue(bcc[0]) + HexValue(bcc[1])) else None
  }

  lemma HexCharSpells(b: byte, n: byte)
    requires n < 16
    ensures IsHexDigit(b) && UpperHex(b) == HexChar(n) <==> IsHexDigit(b) && HexValue(b) == n
  {
  }

  /** A frame is valid exactly if its BCC characters, in either case, spell the XOR of the bytes before them. */
  lemma BccDecides(eventId: nat, frameId: nat, offset: nat, raw: RawFrame)
    ensures ParseFrame(eventId, frameId, offset, raw).bccValid <==>
            Spelled(raw[|raw| - 3..|raw| - 1]) == Some(Xor(raw[..|raw| - 3]))
  {
    hide HexChar, UpperHex;
    var bcc, v := raw[|raw| - 3..|raw| - 1], Xor(raw[..|raw| - 3]);
    HexCharSpells(bcc[0], v / 16);
    HexCharSpells(bcc[1], v % 16);
  }

  /** The same number in other letters: a case variant. */
  predicate CaseVariant(a: byte, b: byte) {
    IsHexDigit(a) && IsHexDigit(b) && HexValue(a) == HexValue(b)
  }

  /** raw arrived where a frame with these fields was sent: exactly the byte at k, behind the STX and before the
      ETX, is another one. */
  predicate Damages(f: FrameFields, raw: seq<byte>, k: nat)
    requires Buildable(f)
  {
    var built := BuildFrame(f).value;
    && |raw| == |built| && 1 <= k < |raw| - 1
    && raw[k] != built[k] && forall i | 0 <= i < |raw| && i != k :: raw[i] == built[i]
  }

  /** The XOR detects damage before the BCC exactly if the changes do not cancel out. */
  lemma DamageUndetected(f: FrameFields, raw: RawFrame, eventId: nat, frameId: nat, offset: nat)
    requires Buildable(f) && |raw| == |BuildFrame(f).value| && raw[|raw| - 3..] == BuildFrame(f).value[|raw| - 3..]
    ensures var n := |raw| - 3;
            ParseFrame(eventId, frameId, offset, raw).bccValid <==> Xor(Difference(BuildFrame(f).value[..n], raw[..n])) == 0
  {
    hide ParseFrame, Xor, HexValue;
    var built: RawFrame, n := BuildFrame(f).value, |raw| - 3;
    ParseInvertsBuild(f, eventId, frameId, offset);
    BccDecides(eventId, frameId, offset, built);
    BccDecides(eventId, frameId, offset, raw);
    assert raw[n..n + 2] == raw[n..][..2] == built[n..n + 2];
    XorMisses(built[..n], raw[..n]);
  }

  /** One changed byte always makes the frame invalid, except a BCC letter in the other case. */
  lemma OneByteDetected(f: FrameFields, raw: RawFrame, k: nat, eventId: nat, frameId: nat, offset: nat)
    requires Buildable(f) && Damages(f, raw, k)
    ensures ParseFrame(eventId, frameId, offset, raw).bccValid <==>
            |raw| - 3 <= k && CaseVariant(raw[k], BuildFrame(f).value[k])
  {
    hide ParseFrame, Xor, HexValue, BuildFrame;
    var built: RawFrame, n := BuildFrame(f).value, |raw| - 3;
    ParseInvertsBuild(f, eventId, frameId, offset);
    BccDecides(eventId, frameId, offset, built);
    BccDecides(eventId, frameId, offset, raw);
    if k < n {
      OneByteChangesXor(built[..n], raw[..n], k);
      assert raw[n..n + 2] == built[n..n + 2];
    } else {
      assert raw[..n] == built[..n];
    }
  }

  lemma DamageDiagnosed(f: FrameFields, raw: RawFrame, k: nat, offset: nat)
    requires Buildable(f) && Damages(f, raw, k)
    requires |raw| - 3 <= k ==> !CaseVariant(raw[k], BuildFrame(f).value[k])
    ensures Diagnosis(FrameAt(offset, raw)) == [Gap(offset, InvalidBcc, |raw|)]
  {
    hide ParseFrame, BuildFrame, Damages, CaseVariant;
    OneByteDetected(f, raw, k, 0, 0, offset);
  }

  /** The frame worked out in the documentation: the request "=K" with sequence 0. */
  const DOCUMENTED: RawFrame := [0x02, 0x30, 0x30, 0x30, 0x30, 0x32, 0x7A, 0x3D, 0x4B, 0x30, 0x30, 0x43, 0x03]

  lemma XorNext(s: seq<byte>, n: nat)
    requires n < |s|
    ensures Xor(s[..n + 1]) == Xor2(Xor(s[..n]), s[n])
  {
    assert s[..n + 1][..n] == s[..n];
  }

  lemma Xor2Is(a: byte, b: byte, c: byte)
    requires (a as bv8) ^ (b as bv8) == c as bv8
    ensures Xor2(a, b) == c
  {
    Xor2Bits(a, b);
    SameBits(Xor2(a, b), c);
  }

  lemma DocumentedSteps()
    ensures Xor2(0x00, 0x02) == 0x02 && Xor2(0x02, 0x30) == 0x32 && Xor2(0x32, 0x30) == 0x02
    ensures Xor2(0x02, 0x32) == 0x30 && Xor2(0x30, 0x7A) == 0x4A && Xor2(0x4A, 0x3D) == 0x77
    ensures Xor2(0x77, 0x4B) == 0x3C && Xor2(0x3C, 0x30) == 0x0C
  {
    hide Xor2;
    Xor2Is(0x00, 0x02, 0x02);
    Xor2Is(0x02, 0x30, 0x32);
    Xor2Is(0x32, 0x30, 0x02);
    Xor2Is(0x02, 0x32, 0x30);
    Xor2Is(0x30, 0x7A, 0x4A);
    Xor2Is(0x4A, 0x3D, 0x77);
    Xor2Is(0x77, 0x4B, 0x3C);
    Xor2Is(0x3C, 0x30, 0x0C);
  }

  lemma DocumentedXor()
    ensures Xor(DOCUMENTED[..10]) == 0x0C
  {
    hide Xor, Xor2;
    var s := DOCUMENTED;
    DocumentedSteps();
    XorNothing(s);
    XorNext(s, 0);
    XorNext(s, 1);
    XorNext(s, 2);
    XorNext(s, 3);
    XorNext(s, 4);
    XorNext(s, 5);
    XorNext(s, 6);
    XorNext(s, 7);
    XorNext(s, 8);
    XorNext(s, 9);
  }

  lemma XorNothing(s: seq<byte>)
    ensures Xor(s[..0]) == 0
  {
  }

  /** It is valid and carries its documented fields. */
  lemma DocumentedFrame(eventId: nat, frameId: nat, offset: nat)
    ensures var e := ParseFrame(eventId, frameId, offset, DOCUMENTED);
            e.bccValid && e.address == [0x30, 0x30] && e.frameClass == 0x7A && e.data == [0x3D, 0x4B] && e.sequence == 0x30
  {
    hide Xor;
    DocumentedXor();
    BccDecides(eventId, frameId, offset, DOCUMENTED);
  }

  /** Damage behind the length field leaves the frame its shape, and so does another digit in the address. */
  lemma DamageKeepsShape(m: nat, f: FrameFields, raw: seq<byte>, k: nat)
    requires Buildable(f) && |f.data| <= m && Damages(f, raw, k)
    requires 6 <= k || (k < 3 && IsDigit(raw[k]))
    ensures Framed(m, raw)
  {
    BuiltIsFramed(m, f);
    hide BuildFrame;
    var built := BuildFrame(f).value;
    assert HeaderDigits(raw, 0) by {
      forall i | 0 < i < 6 ensures IsDigit(raw[i]) {
        assert i != k ==> raw[i] == built[i];
      }
    }
    assert raw[3] == built[3] && raw[4] == built[4] && raw[5] == built[5];
    assert raw[0] == built[0] && raw[|raw| - 1] == built[|raw| - 1];
  }

  // ---------------------------------------------------------------- one damaged byte in a stream

  /** The peer sent these units; the byte at k of the frame of unit d arrived changed, but not into a case variant of a
      BCC letter and not so that the frame lost its shape. */
  predicate Hit(m: nat, units: seq<Unit>, d: nat, raw: seq<byte>, k: nat) {
    && Sendable(m, units) && d < |units| && units[d].Transmission?
    && Damages(units[d].fields, raw, k) && Framed(m, raw)
    && (|raw| - 3 <= k ==> !CaseVariant(raw[k], BuildFrame(units[d].fields).value[k]))
  }

  predicate ArrivesHit(lim: Limits, units: seq<Unit>, d: nat, raw: seq<byte>, k: nat, chunks: seq<seq<byte>>) {
    && lim.Valid() && Hit(lim.maxDataLength, units, d, raw, k)
    && Flatten(chunks) == Flatten(Pieces(lim.maxDataLength, units)[d := raw])
  }

  /** The ledger differs from that of the undamaged stream in the damaged frame's bytes alone. */
  lemma HitLedger(lim: Limits, units: seq<Unit>, d: nat, raw: RawFrame, k: nat, chunks: seq<seq<byte>>)
    requires ArrivesHit(lim, units, d, raw, k, chunks)
    ensures var ledger, pieces := FinalLedger(lim, chunks), Pieces(lim.maxDataLength, units);
            && |ledger| == |units|
            && ledger[d] == FrameAt(|Flatten(pieces[..d])|, raw)
            && (forall i | 0 <= i < |units| && i != d ::
                  !ledger[i].Gap? && ledger[i].FrameAt? == units[i].Transmission?
                  && (units[i].Transmission? ==> ledger[i].raw == BuildFrame(units[i].fields).value))
  {
    hide FinalLedger, Flatten, BuildFrame, Framed, Damages, CaseVariant, Expected;
    var m := lim.maxDataLength;
    var sent := Pieces(m, units);
    var pieces := sent[d := raw];
    PiecesAreFramed(m, units);
    FramedUpdate(m, sent, d, raw);
    PiecesReadBack(lim, pieces, chunks);
    forall i | 0 <= i < |units|
      ensures FinalLedger(lim, chunks)[i] == PieceEntry(m, pieces[i], |Flatten(pieces[..i])|)
      ensures i != d && units[i].Transmission? ==> pieces[i] != [ACK]
    {
      ExpectedAt(m, pieces, 0, i);
      UnitIsFramed(m, units[i]);
    }
    assert pieces[..d] == sent[..d];
  }

  lemma FramedUpdate(m: nat, pieces: seq<seq<byte>>, d: nat, raw: seq<byte>)
    requires AllFramed(m, pieces) && d < |pieces| && Framed(m, raw)
    ensures AllFramed(m, pieces[d := raw])
  {
    hide Framed;
  }

  /** One damaged byte: every other record is what was sent, and the damaged frame's record says that it is invalid. */
  lemma HitRecords(lim: Limits, units: seq<Unit>, d: nat, raw: RawFrame, k: nat, chunks: seq<seq<byte>>, i: nat)
    requires ArrivesHit(lim, units, d, raw, k, chunks) && i < |units|
    ensures var events := Numbered(FinalLedger(lim, chunks));
            && |events| == |units|
            && (i != d ==> Delivers(events, units, i))
            && events[d].RCHFrame? && events[d].raw == raw && !events[d].bccValid
            && events[d].eventId == d + 1 && events[d].frameId == Transmissions(units[..d]) + 1
  {
    hide FinalLedger, Flatten, BuildFrame, Framed, Numbered, Delivers, CaseVariant, Damages;
    var ledger := FinalLedger(lim, chunks);
    HitLedger(lim, units, d, raw, k, chunks);
    if i != d {
      RecordDelivers(ledger, units, i);
    }
    NumberedAt(ledger, d);
    FramesCounted(ledger, units, d);
    OneByteDetected(units[d].fields, raw, k, d + 1, Transmissions(units[..d]) + 1, ledger[d].offset);
  }

  lemma {:induction false} OneDiagnosis(ledger: seq<Entry>, d: nat)
    requires d < |ledger| && forall i | 0 <= i < |ledger| && i != d :: Diagnosis(ledger[i]) == []
    ensures Diagnoses(ledger) == Diagnosis(ledger[d])
  {
    hide Diagnosis;
    var n := |ledger| - 1;
    if d < n {
      OneDiagnosis(ledger[..n], d);
    } else {
      NoDiagnoses(ledger[..n]);
    }
  }

  lemma {:induction false} NoDiagnoses(ledger: seq<Entry>)
    requires forall k | 0 <= k < |ledger| :: Diagnosis(ledger[k]) == []
    ensures Diagnoses(ledger) == []
  {
    hide Diagnosis;
    if ledger != [] {
      NoDiagnoses(ledger[..|ledger| - 1]);
    }
  }

  lemma BuiltIsClean(f: FrameFields, offset: nat)
    requires Buildable(f)
    ensures Diagnosis(FrameAt(offset, BuildFrame(f).value)) == []
  {
    hide ParseFrame, BuildFrame;
    ParseInvertsBuild(f, 0, 0, offset);
  }

  /** ... and the only diagnosis is a bad BCC on that frame. */
  lemma HitDiagnosed(lim: Limits, units: seq<Unit>, d: nat, raw: RawFrame, k: nat, chunks: seq<seq<byte>>)
    requires ArrivesHit(lim, units, d, raw, k, chunks)
    ensures Diagnoses(FinalLedger(lim, chunks)) ==
            [Gap(|Flatten(Pieces(lim.maxDataLength, units)[..d])|, InvalidBcc, |raw|)]
  {
    hide FinalLedger, Flatten, BuildFrame, Framed, CaseVariant, Damages, Diagnosis;
    var ledger := FinalLedger(lim, chunks);
    HitLedger(lim, units, d, raw, k, chunks);
    forall i | 0 <= i < |ledger| && i != d ensures Diagnosis(ledger[i]) == [] {
      if units[i].Transmission? {
        BuiltIsClean(units[i].fields, ledger[i].offset);
      } else {
        AckIsClean(ledger[i]);
      }
    }
    OneDiagnosis(ledger, d);
    DamageDiagnosed(units[d].fields, raw, k, ledger[d].offset);
  }

  lemma AckIsClean(e: Entry)
    requires e.AckAt?
    ensures Diagnosis(e) == []
  {
  }

  lemma NothingToDiagnose(lim: Limits, units: seq<Unit>, chunks: seq<seq<byte>>)
    requires Arrives(lim, units, chunks)
    ensures Diagnoses(FinalLedger(lim, chunks)) == []
  {
    hide FinalLedger, Flatten, BuildFrame, Diagnosis;
    var ledger := FinalLedger(lim, chunks);
    RoundTrip(lim, units, chunks);
    forall i | 0 <= i < |ledger| ensures Diagnosis(ledger[i]) == [] {
      if units[i].Transmission? {
        BuiltIsClean(units[i].fields, ledger[i].offset);
      } else {
        AckIsClean(ledger[i]);
      }
    }
    NoDiagnoses(ledger);
  }
}
