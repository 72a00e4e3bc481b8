/** Every entry of the ledger is what the stream holds at its place, and every rejection has its reason there. */
module FramingReports {
  import opened RchBytes
  import opened FramingSpec
  import opened FramingRefinement
  import opened FramingTheorems
  import opened FramingRoundTrip

  /** An STX whose five header bytes are decimal digits. */
  predicate DecimalHeader(t: seq<byte>, p: nat) {
    p + 6 <= |t| && t[p] == STX && forall i | p < i < p + 6 :: IsDigit(t[i])
  }

  /** The reason why the n bytes at p were rejected. */
  predicate Reason(m: nat, t: seq<byte>, code: IssueCode, p: nat, n: nat)
    requires p < |t|
  {
    match code
    case UnframedBytes => !IsControl(t[p])
    case MalformedHeader => t[p] == STX && p + 6 <= |t| && !DecimalHeader(t, p)
    case OversizeFrame => DecimalHeader(t, p) && m < DeclaredLength(t, p)
    case InvalidTerminator =>
      && DecimalHeader(t, p) && DeclaredLength(t, p) <= m
      && var end := p + DeclaredLength(t, p) + FRAME_OVERHEAD - 1;
      end < |t| && t[end] != ETX
    case TruncatedFrame =>
      && p + n == |t| && t[p] == STX
      && (if DecimalHeader(t, p) then DeclaredLength(t, p) <= m && |t| < p + DeclaredLength(t, p) + FRAME_OVERHEAD
          else |t| < p + 6)
    case _ => false
  }

  /** The entry is what the stream holds. */
  predicate Justified(m: nat, t: seq<byte>, e: Entry) {
    match e
    case AckAt(offset) => offset < |t| && t[offset] == ACK
    case FrameAt(offset, raw) =>
      offset + |raw| <= |t| && raw == t[offset..offset + |raw|] && raw != [ACK] && Framed(m, raw)
    case Gap(offset, code, count) =>
      && 0 < count && offset + count <= |t| && Reason(m, t, code, offset, count)
      && (!code.MalformedHeader? && !code.TruncatedFrame? ==> forall i | offset < i < offset + count :: !IsControl(t[i]))
  }

  predicate AllJustified(m: nat, t: seq<byte>, ledger: seq<Entry>) {
    forall i | 0 <= i < |ledger| :: Justified(m, t, ledger[i])
  }

  lemma AcceptedIsFramed(m: nat, s: seq<byte>, size: nat)
    requires s != [] && Classify(m, s, 0) == Accept(size)
    ensures size <= |s| && Framed(m, s[..size]) && s[..size] != [ACK]
  {
    var raw := s[..size];
    assert forall i | 0 <= i < 6 :: raw[i] == s[i];
    assert HeaderDigits(raw, 0);
    assert DeclaredLength(raw, 0) == DeclaredLength(s, 0);
    assert raw[|raw| - 1] == s[size - 1];
  }

  lemma HeaderSeen(t: seq<byte>, c: Core)
    requires View(t, c) && 6 <= |c.pending|
    ensures c.offset + 6 <= |t| && (HeaderDigits(c.pending, 0) <==> HeaderDigits(t, c.offset))
    ensures HeaderDigits(t, c.offset) ==> DeclaredLength(t, c.offset) == DeclaredLength(c.pending, 0)
  {
    forall i | 0 <= i < 6 ensures c.pending[i] == t[c.offset + i] {}
    if HeaderDigits(c.pending, 0) {
      forall i | c.offset < i < c.offset + 6 ensures IsDigit(t[i]) {
        assert IsDigit(c.pending[i - c.offset]);
      }
    }
    if HeaderDigits(t, c.offset) {
      forall i | 0 < i < 6 ensures IsDigit(c.pending[i]) {
        assert IsDigit(t[c.offset + i]);
      }
    }
  }

  lemma FrontBytes(t: seq<byte>, c: Core, n: nat)
    requires View(t, c) && n <= |c.pending|
    ensures c.offset + n <= |t| && c.pending[..n] == t[c.offset..c.offset + n]
  {
  }

  lemma StepJustified(m: nat, t: seq<byte>, c: Core)
    requires View(t, c) && CanAdvance(m, c)
    ensures Justified(m, t, NextEntry(m, c))
  {
    hide NextPlausible, NextControl;
    var s, e := c.pending, NextEntry(m, c);
    var v := Classify(m, s, 0);
    assert s[0] == t[c.offset];
    if v.Accept? {
      AcceptedIsFramed(m, s, v.size);
      FrontBytes(t, c, v.size);
    } else if e.Gap? {
      if 6 <= |s| {
        HeaderSeen(t, c);
      }
      if v.BadTerminator? {
        var size := DeclaredLength(s, 0) + FRAME_OVERHEAD;
        assert s[size - 1] == t[c.offset + size - 1];
      }
      forall i | c.offset < i < c.offset + e.count && !v.BadHeader? ensures !IsControl(t[i]) {
        assert t[i] == s[i - c.offset];
      }
    }
  }

  lemma {:induction false} DrainJustified(m: nat, t: seq<byte>, c: Core)
    requires View(t, c) && AllJustified(m, t, c.ledger)
    ensures View(t, Drain(m, c)) && AllJustified(m, t, Drain(m, c).ledger)
    decreases |c.pending|
  {
    hide NextEntry, Justified, CanAdvance, View;
    if CanAdvance(m, c) {
      StepJustified(m, t, c);
      AdvanceView(m, t, c);
      DrainJustified(m, t, Advance(m, c));
    }
  }

  lemma ReceiveView(t: seq<byte>, c: Core, chunk: seq<byte>, count: nat)
    requires View(t, c) && count <= |chunk| && Upcoming(t, c, chunk)
    ensures View(t, Receive(c, chunk[..count]))
  {
    var seen := c.offset + |c.pending|;
    assert chunk[..count] == t[seen..seen + count];
  }

  lemma {:induction false} FeedJustified(lim: Limits, t: seq<byte>, c: Core, chunk: seq<byte>)
    requires lim.Valid() && HasRoom(lim, c) && View(t, c) && Upcoming(t, c, chunk)
    requires AllJustified(lim.maxDataLength, t, c.ledger)
    ensures View(t, Feed(lim, c, chunk)) && AllJustified(lim.maxDataLength, t, Feed(lim, c, chunk).ledger)
    decreases |chunk|
  {
    hide Justified, Drain, CanAdvance;
    if chunk != [] {
      var m, count := lim.maxDataLength, FeedCount(lim, c, chunk);
      var w := Receive(c, chunk[..count]);
      FeedUnfold(lim, c, chunk);
      ReceiveView(t, c, chunk, count);
      DrainJustified(m, t, w);
      FeedJustified(lim, t, Drain(m, w), chunk[count..]);
    }
  }

  lemma {:induction false} FeedAllJustified(lim: Limits, t: seq<byte>, c: Core, chunks: seq<seq<byte>>)
    requires lim.Valid() && HasRoom(lim, c) && View(t, c) && AllJustified(lim.maxDataLength, t, c.ledger)
    requires t[c.offset + |c.pending|..] == Flatten(chunks)
    ensures var r := FeedAll(lim, c, chunks);
            View(t, r) && AllJustified(lim.maxDataLength, t, r.ledger) && r.offset + |r.pending| == |t|
    decreases |chunks|
  {
    hide Justified, Feed, CanAdvance;
    if chunks != [] {
      var seen := c.offset + |c.pending|;
      assert t[seen..seen + |chunks[0]|] == t[seen..][..|chunks[0]|] == chunks[0];
      FeedJustified(lim, t, c, chunks[0]);
      assert t[seen + |chunks[0]|..] == t[seen..][|chunks[0]|..] == Flatten(chunks[1..]);
      FeedAllJustified(lim, t, Feed(lim, c, chunks[0]), chunks[1..]);
    }
  }

  /** What waits at the end of the stream is the beginning of a frame that never came. */
  lemma RestIsTruncated(m: nat, t: seq<byte>, c: Core)
    requires View(t, c) && Waiting(m, c.pending) && c.offset + |c.pending| == |t|
    ensures Justified(m, t, Gap(c.offset, TruncatedFrame, |c.pending|))
  {
    assert t[c.offset] == c.pending[0];
    if 6 <= |c.pending| {
      HeaderSeen(t, c);
    }
  }

  /** For every stream, segmentation and buffer size: each acknowledgement is an ACK byte at its offset, each frame the
      very bytes of the stream in the shape of a frame, and each rejected range has its stated reason. */
  lemma LedgerIsJustified(lim: Limits, chunks: seq<seq<byte>>)
    requires lim.Valid()
    ensures AllJustified(lim.maxDataLength, Flatten(chunks), FinalLedger(lim, chunks))
  {
    hide Justified, CanAdvance, FeedAll;
    var m, t := lim.maxDataLength, Flatten(chunks);
    assert t[0..] == t;
    FeedAllJustified(lim, t, EMPTY_CORE, chunks);
    var c := FeedAll(lim, EMPTY_CORE, chunks);
    DrainJustified(m, t, c);
    var d := Drain(m, c);
    if d.pending != [] {
      RestIsTruncated(m, t, d);
    }
  }
}
