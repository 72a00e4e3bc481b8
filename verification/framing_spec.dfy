/** Specification of the framer: one position, the one-position-at-a-time reference, and the buffered scanner. */
module FramingSpec {
  import opened RchBytes

  datatype IssueCode =
    | UnframedBytes
    | TruncatedFrame
    | MalformedHeader
    | OversizeFrame
    | InvalidTerminator
    | InvalidBcc
    | EventLimitExceeded
    | IssueLimitExceeded

  type RawFrame = s: seq<byte> | |s| >= FRAME_OVERHEAD witness seq(FRAME_OVERHEAD, i => 0)

  /** What the framer did with a range of the stream. */
  datatype Entry =
    | AckAt(offset: nat)
    | FrameAt(offset: nat, raw: RawFrame)
    | Gap(offset: nat, code: IssueCode, count: nat)
  {
    function Width(): nat {
      match this
      case AckAt(_) => 1
      case FrameAt(_, raw) => |raw|
      case Gap(_, _, count) => count
    }
  }

  /** The events of a ledger, without the skipped ranges. */
  function Events(ledger: seq<Entry>): (r: seq<Entry>)
    ensures |r| <= |ledger|
  {
    if ledger == [] then []
    else
      var last := ledger[|ledger| - 1];
      Events(ledger[..|ledger| - 1]) + if last.Gap? then [] else [last]
  }

  lemma EventsAppend(ledger: seq<Entry>, e: Entry)
    ensures Events(ledger + [e]) == Events(ledger) + if e.Gap? then [] else [e]
  {
    assert (ledger + [e])[..|ledger|] == ledger;
  }

  /** The entries cover start..end in order, without gap or overlap, and none is empty. */
  predicate Tiles(ledger: seq<Entry>, start: nat, end: nat) {
    if ledger == [] then start == end
    else
      var last := ledger[|ledger| - 1];
      && 0 < last.Width()
      && last.offset + last.Width() == end
      && Tiles(ledger[..|ledger| - 1], start, last.offset)
  }

  lemma TilesAppend(ledger: seq<Entry>, start: nat, end: nat, e: Entry)
    requires Tiles(ledger, start, end) && e.offset == end && 0 < e.Width()
    ensures Tiles(ledger + [e], start, end + e.Width())
  {
    assert (ledger + [e])[..|ledger|] == ledger;
  }

  // ---------------------------------------------------------------- classification of one position

  datatype Verdict =
    | Acknowledge
    | Unframed
    | ShortHeader
    | BadHeader
    | Oversize
    | ShortFrame
    | BadTerminator
    | Accept(size: nat)

  predicate HeaderDigits(s: seq<byte>, p: nat)
    requires p + 6 <= |s|
  {
    forall i | p < i < p + 6 :: IsDigit(s[i])
  }

  function DeclaredLength(s: seq<byte>, p: nat): (n: nat)
    requires p + 6 <= |s| && HeaderDigits(s, p)
    ensures n <= 999
  {
    100 * DigitValue(s[p + 3]) + 10 * DigitValue(s[p + 4]) + DigitValue(s[p + 5])
  }

  /** What s offers at position p when frames carry at most m data bytes. */
  function Classify(m: nat, s: seq<byte>, p: nat): Verdict
    requires p < |s|
  {
    if s[p] == ACK then Acknowledge
    else if s[p] != STX then Unframed
    else if |s| < p + 6 then ShortHeader
    else if !HeaderDigits(s, p) then BadHeader
    else if DeclaredLength(s, p) > m then Oversize
    else
      var size := DeclaredLength(s, p) + FRAME_OVERHEAD;
      if |s| < p + size then ShortFrame
      else if s[p + size - 1] != ETX then BadTerminator
      else Accept(size)
  }

  // ---------------------------------------------------------------- reference scanner

  /** events: acknowledgements and frames; end: where scanning stopped; afterBadHeader: the last control
      byte scanned before end was an STX with a malformed header. */
  datatype Outcome = Outcome(events: seq<Entry>, end: nat, afterBadHeader: bool) {
    function After(e: Entry): Outcome {
      Outcome([e] + events, end, afterBadHeader)
    }
  }

  /** Scans the whole stream t from p, one position at a time, jumping over accepted frames only. */
  function Reference(m: nat, t: seq<byte>, p: nat, afterBadHeader: bool): (r: Outcome)
    requires p <= |t|
    ensures p <= r.end <= |t|
    decreases |t| - p
  {
    if p == |t| then Outcome([], p, afterBadHeader)
    else
      match Classify(m, t, p)
      case Acknowledge => Reference(m, t, p + 1, false).After(AckAt(p))
      case Unframed => Reference(m, t, p + 1, afterBadHeader)
      case ShortHeader => Outcome([], p, afterBadHeader)
      case BadHeader => Reference(m, t, p + 1, true)
      case Oversize => Reference(m, t, p + 1, false)
      case ShortFrame => Outcome([], p, afterBadHeader)
      case BadTerminator => Reference(m, t, p + 1, false)
      case Accept(size) => Reference(m, t, p + size, false).After(FrameAt(p, t[p..p + size]))
  }

  /** The acknowledgements and frames of a complete stream. */
  function ReferenceEvents(m: nat, t: seq<byte>): seq<Entry> {
    Reference(m, t, 0, false).events
  }

  // ---------------------------------------------------------------- resynchronisation

  /** The first control byte of s from start on, or |s|. */
  function NextControl(s: seq<byte>, start: nat): (r: nat)
    requires start <= |s|
    ensures start <= r <= |s|
    ensures forall i | start <= i < r :: !IsControl(s[i])
    ensures r < |s| ==> IsControl(s[r])
    decreases |s| - start
  {
    if start == |s| || IsControl(s[start]) then start else NextControl(s, start + 1)
  }

  /** An ACK, or an STX followed by five digits. */
  predicate Plausible(s: seq<byte>, i: nat)
    requires i < |s|
  {
    s[i] == ACK || (s[i] == STX && i + 6 <= |s| && HeaderDigits(s, i))
  }

  function FirstPlausible(s: seq<byte>, start: nat): (r: nat)
    requires start <= |s|
    ensures start <= r <= |s|
    ensures forall i | start <= i < r :: !Plausible(s, i)
    ensures r < |s| ==> Plausible(s, r)
    decreases |s| - start
  {
    if start == |s| || Plausible(s, start) then start else FirstPlausible(s, start + 1)
  }

  /** The last STX of s from start on, or |s|. */
  function LastStx(s: seq<byte>, start: nat): (r: nat)
    requires start <= |s|
    ensures start <= r <= |s|
    ensures r < |s| ==> s[r] == STX
    ensures forall i | start <= i < |s| && s[i] == STX :: r < |s| && i <= r
    decreases |s| - start
  {
    if start == |s| then |s|
    else
      var later := LastStx(s, start + 1);
      if later < |s| then later else if s[start] == STX then start else |s|
  }

  /** Where a malformed header resumes: the first plausible control byte or, failing that, the last STX
      whose header is still incomplete. */
  function NextPlausible(s: seq<byte>, start: nat): (r: nat)
    requires start <= |s|
    ensures start <= r <= |s|
  {
    var first := FirstPlausible(s, start);
    if first < |s| then first
    else LastStx(s, if start + 5 <= |s| then |s| - 5 else start)
  }

  // ---------------------------------------------------------------- buffered scanner

  /** ledger covers the stream up to offset; pending holds the bytes received after it. */
  datatype Core = Core(ledger: seq<Entry>, offset: nat, pending: seq<byte>) {
    function Record(e: Entry): Core
      requires e.Width() <= |pending|
    {
      Core(ledger + [e], offset + e.Width(), pending[e.Width()..])
    }
  }

  const EMPTY_CORE := Core([], 0, [])

  /** A buffer that cannot be judged until more bytes arrive. */
  predicate Waiting(m: nat, s: seq<byte>) {
    s != [] && var v := Classify(m, s, 0); v.ShortHeader? || v.ShortFrame?
  }

  predicate CanAdvance(m: nat, c: Core) {
    c.pending != [] && !Waiting(m, c.pending)
  }

  /** The acknowledgement, frame or rejected range at the front of the buffer. */
  function NextEntry(m: nat, c: Core): (e: Entry)
    requires CanAdvance(m, c)
    ensures e.offset == c.offset && 0 < e.Width() <= |c.pending|
    ensures e.AckAt? <==> Classify(m, c.pending, 0).Acknowledge?
    ensures e.FrameAt? <==> Classify(m, c.pending, 0).Accept?
    ensures e.FrameAt? ==> e.raw == c.pending[..Classify(m, c.pending, 0).size]
  {
    match Classify(m, c.pending, 0)
    case Acknowledge => AckAt(c.offset)
    case Unframed => Gap(c.offset, UnframedBytes, NextControl(c.pending, 1))
    case BadHeader => Gap(c.offset, MalformedHeader, NextPlausible(c.pending, 1))
    case Oversize => Gap(c.offset, OversizeFrame, NextControl(c.pending, 1))
    case BadTerminator => Gap(c.offset, InvalidTerminator, NextControl(c.pending, 1))
    case Accept(size) => FrameAt(c.offset, c.pending[..size])
  }

  function Advance(m: nat, c: Core): (r: Core)
    requires CanAdvance(m, c)
    ensures |r.pending| < |c.pending|
    ensures r.offset + |r.pending| == c.offset + |c.pending|
  {
    c.Record(NextEntry(m, c))
  }

  function Drain(m: nat, c: Core): (r: Core)
    ensures r.pending == [] || Waiting(m, r.pending)
    ensures c.ledger <= r.ledger
    ensures r.offset + |r.pending| == c.offset + |c.pending|
    decreases |c.pending|
  {
    if CanAdvance(m, c) then Drain(m, Advance(m, c)) else c
  }

  datatype Limits = Limits(
    maxDataLength: nat,
    maxBufferBytes: nat,
    maxEvents: nat,
    maxIssues: nat,
    maxIssueRawBytes: nat,
    retainHistory: bool)
  {
    /** The constructor's acceptance test. */
    predicate Valid() {
      && maxDataLength <= 999
      && FRAME_OVERHEAD <= maxBufferBytes
      && maxDataLength + FRAME_OVERHEAD <= maxBufferBytes
      && 1 <= maxEvents
      && 1 <= maxIssues
    }
  }

  /** A waiting buffer is shorter than the largest frame, so it always has room for another byte. */
  lemma WaitingIsShort(m: nat, s: seq<byte>)
    requires Waiting(m, s)
    ensures |s| < m + FRAME_OVERHEAD
  {
  }

  function Receive(c: Core, more: seq<byte>): Core {
    c.(pending := c.pending + more)
  }

  predicate HasRoom(lim: Limits, c: Core) {
    |c.pending| < lim.maxBufferBytes
  }

  /** How much of a chunk fits into the bounded buffer. */
  function FeedCount(lim: Limits, c: Core, chunk: seq<byte>): (n: nat)
    requires HasRoom(lim, c)
    ensures n <= |chunk| && |c.pending| + n <= lim.maxBufferBytes
    ensures chunk != [] ==> 0 < n
  {
    var capacity := lim.maxBufferBytes - |c.pending|;
    if capacity < |chunk| then capacity else |chunk|
  }

  /** One call of feed: the chunk enters the bounded buffer slice by slice. */
  function Feed(lim: Limits, c: Core, chunk: seq<byte>): (r: Core)
    requires lim.Valid() && HasRoom(lim, c)
    ensures HasRoom(lim, r) && c.ledger <= r.ledger
    ensures !CanAdvance(lim.maxDataLength, c) ==> !CanAdvance(lim.maxDataLength, r)
    ensures r.offset + |r.pending| == c.offset + |c.pending| + |chunk|
    decreases |chunk|
  {
    if chunk == [] then c
    else
      var count := FeedCount(lim, c, chunk);
      Feed(lim, Drain(lim.maxDataLength, Receive(c, chunk[..count])), chunk[count..])
  }

  function FeedAll(lim: Limits, c: Core, chunks: seq<seq<byte>>): (r: Core)
    requires lim.Valid() && HasRoom(lim, c)
    ensures HasRoom(lim, r) && c.ledger <= r.ledger
    ensures !CanAdvance(lim.maxDataLength, c) ==> !CanAdvance(lim.maxDataLength, r)
    decreases |chunks|
  {
    if chunks == [] then c else FeedAll(lim, Feed(lim, c, chunks[0]), chunks[1..])
  }

  /** End of stream: what is still pending becomes one truncated range. */
  function Finish(m: nat, c: Core): (r: Core)
    ensures r.pending == [] && c.ledger <= r.ledger
    ensures r.offset == c.offset + |c.pending|
  {
    var d := Drain(m, c);
    if d.pending == [] then d else d.Record(Gap(d.offset, TruncatedFrame, |d.pending|))
  }

  function Flatten(chunks: seq<seq<byte>>): seq<byte> {
    if chunks == [] then [] else chunks[0] + Flatten(chunks[1..])
  }

  /** Everything the framer recorded about a stream received as these chunks. */
  function FinalLedger(lim: Limits, chunks: seq<seq<byte>>): seq<Entry>
    requires lim.Valid()
  {
    Finish(lim.maxDataLength, FeedAll(lim, EMPTY_CORE, chunks)).ledger
  }
}
