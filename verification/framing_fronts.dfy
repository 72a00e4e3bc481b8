/** Segmentation for one framer, decided on the bytes: byte by byte it waits longest before the malformed header. */
module FramingFronts {
  import opened RchBytes
  import opened FramingSpec
  import opened FramingRefinement
  import opened FramingTheorems
  import opened FramingWindows
  import opened FramingPasses

  /** The scanner after the first n bytes of t, fed one at a time. It never depends on the buffer size. */
  function Bytewise(m: nat, t: seq<byte>, n: nat): (c: Core)
    requires n <= |t|
    ensures !CanAdvance(m, c) && c.offset + |c.pending| == n
  {
    if n == 0 then EMPTY_CORE else Drain(m, Receive(Bytewise(m, t, n - 1), [t[n - 1]]))
  }

  /** How much of t byte-by-byte feeding takes before the scanner moves past p. */
  function LastRest(m: nat, t: seq<byte>, p: nat, n: nat): (r: nat)
    requires n <= |t|
    ensures r <= n && Bytewise(m, t, r).offset <= p
    ensures r < n ==> Bytewise(m, t, r + 1).offset > p
  {
    if n == 0 || Bytewise(m, t, n).offset <= p then n else LastRest(m, t, p, n - 1)
  }

  /** The last control byte of s before end, or end. */
  function LastControl(s: seq<byte>, end: nat): (r: nat)
    requires end <= |s|
    ensures r <= end
    ensures r < end ==> IsControl(s[r]) && forall i | r < i < end :: !IsControl(s[i])
    ensures r == end ==> forall i | 0 <= i < end :: !IsControl(s[i])
  {
    if end == 0 then 0
    else if IsControl(s[end - 1]) then end - 1
    else
      var r := LastControl(s, end - 1);
      if r == end - 1 then end else r
  }

  /** The control byte before the place where the reference scan ends. */
  function Malformed(m: nat, t: seq<byte>): nat {
    LastControl(t, Reference(m, t, 0, false).end)
  }

  /** Where the byte-by-byte scanner last stands before it passes that control byte. */
  function Front(m: nat, t: seq<byte>): nat {
    Bytewise(m, t, LastRest(m, t, Malformed(m, t), |t|)).offset
  }

  /** The stream is ambiguous and a late ACK lies less than one buffer behind the front. */
  predicate AmbiguousWithin(lim: Limits, t: seq<byte>) {
    var m := lim.maxDataLength;
    && Ambiguous(m, t)
    && exists i | Reference(m, t, 0, false).end < i < |t| :: i < Front(m, t) + lim.maxBufferBytes && t[i] == ACK
  }

  // ---------------------------------------------------------------- the last malformed header

  /** What the flag changes: nothing, or only the flag at the end because no control byte comes before it. */
  lemma {:induction false} FlagCarried(m: nat, t: seq<byte>, p: nat)
    requires p <= |t|
    ensures var r, u := Reference(m, t, p, false), Reference(m, t, p, true);
            r == u || (u == r.(afterBadHeader := true) && !r.afterBadHeader && forall i | p <= i < r.end :: !IsControl(t[i]))
    decreases |t| - p
  {
    if p < |t| && Classify(m, t, p).Unframed? {
      FlagCarried(m, t, p + 1);
    }
  }

  /** A scan that ends behind a malformed header has met that header last. */
  lemma {:induction false} LastMalformed(m: nat, t: seq<byte>, p: nat) returns (k: nat)
    requires p <= |t| && Reference(m, t, p, false).afterBadHeader
    ensures p <= k < Reference(m, t, p, false).end && t[k] == STX && Classify(m, t, k).BadHeader?
    ensures forall i | k < i < Reference(m, t, p, false).end :: !IsControl(t[i])
    decreases |t| - p
  {
    var v := Classify(m, t, p);
    if v.BadHeader? {
      FlagCarried(m, t, p + 1);
      if Reference(m, t, p + 1, false).afterBadHeader {
        k := LastMalformed(m, t, p + 1);
      } else {
        k := p;
      }
    } else {
      k := LastMalformed(m, t, if v.Accept? then p + v.size else p + 1);
    }
  }

  lemma ControlBeforeEnd(t: seq<byte>, k: nat, q: nat)
    requires k < q <= |t| && IsControl(t[k]) && forall i | k < i < q :: !IsControl(t[i])
    ensures LastControl(t, q) == k
  {
  }

  lemma MalformedIsBad(m: nat, t: seq<byte>)
    requires Ambiguous(m, t)
    ensures var p := Malformed(m, t); p < Reference(m, t, 0, false).end && t[p] == STX && Classify(m, t, p).BadHeader?
  {
    var k := LastMalformed(m, t, 0);
    ControlBeforeEnd(t, k, Reference(m, t, 0, false).end);
  }

  /** The header is still ahead of a scanner in step with the reference if and only if it has not passed it. */
  lemma AheadIffBefore(m: nat, t: seq<byte>, c: Core)
    requires Ambiguous(m, t) && Follows(m, t, c)
    ensures InStep(m, t, c, false) <==> c.offset <= Malformed(m, t)
  {
    hide Classify;
    var p, q := Malformed(m, t), Reference(m, t, 0, false).end;
    MalformedIsBad(m, t);
    if InStep(m, t, c, false) {
      var k := LastMalformed(m, t, c.offset);
      ControlBeforeEnd(t, k, q);
    } else if c.offset <= p {
      var a :| InStep(m, t, c, a);
      FlagCarried(m, t, c.offset);
    }
  }

  // ---------------------------------------------------------------- no other way past the front

  lemma {:induction false} BytewiseFollows(m: nat, t: seq<byte>, n: nat)
    requires n <= |t|
    ensures var c := Bytewise(m, t, n); Follows(m, t, c) && Tiles(c.ledger, 0, c.offset)
  {
    hide Drain, Reference, Classify, Overrun;
    if n == 0 {
      assert InStep(m, t, EMPTY_CORE, false);
    } else {
      BytewiseFollows(m, t, n - 1);
      var c, next := Bytewise(m, t, n - 1), [t[n - 1]];
      assert next[..1] == next == t[n - 1..n];
      SliceFollows(m, t, c, next, 1);
      DrainTiles(m, Receive(c, next));
    }
  }

  /** After n bytes the byte-by-byte scanner stands last before the malformed header, which it does not front, and
      the unfinished header does not begin in the next five bytes. */
  ghost predicate Turning(m: nat, t: seq<byte>, n: nat) {
    && Ambiguous(m, t)
    && n < |t|
    && Bytewise(m, t, n).offset < Malformed(m, t) < Bytewise(m, t, n + 1).offset
    && Bytewise(m, t, n).offset + 5 < Reference(m, t, 0, false).end
  }

  /** The buffer on which the byte-by-byte scanner passes the malformed header. */
  function Window(m: nat, t: seq<byte>, n: nat): Core
    requires n < |t|
  {
    Receive(Bytewise(m, t, n), [t[n]])
  }

  lemma WindowHolds(m: nat, t: seq<byte>, n: nat)
    requires Turning(m, t, n)
    ensures var c, w := Bytewise(m, t, n), Window(m, t, n);
            && View(t, c) && View(t, w) && w.pending == c.pending + [t[n]]
            && Drain(m, w) == Bytewise(m, t, n + 1)
            && Malformed(m, t) < w.offset + |w.pending|
            && 6 <= |w.pending| && c.pending[0] == t[c.offset] == STX && Waiting(m, c.pending)
  {
    hide Reference, Drain, Overrun, Classify;
    var c, w, p := Bytewise(m, t, n), Window(m, t, n), Malformed(m, t);
    BytewiseFollows(m, t, n);
    MalformedIsBad(m, t);
    assert View(t, w);
    if |w.pending| < 6 {
      ShortWindowStops(m, t, p, w);
      assert false;
    }
    WaitingFront(m, c.pending);
  }

  lemma {:induction false} ReferenceOffsets(m: nat, t: seq<byte>, p: nat, a: bool)
    requires p <= |t|
    ensures forall e | e in Reference(m, t, p, a).events :: p <= e.offset
    decreases |t| - p
  {
    if p < |t| {
      match Classify(m, t, p)
      case ShortHeader =>
      case ShortFrame =>
      case Accept(size) => ReferenceOffsets(m, t, p + size, false);
      case Acknowledge => ReferenceOffsets(m, t, p + 1, false);
      case Unframed => ReferenceOffsets(m, t, p + 1, a);
      case BadHeader => ReferenceOffsets(m, t, p + 1, true);
      case Oversize => ReferenceOffsets(m, t, p + 1, false);
      case BadTerminator => ReferenceOffsets(m, t, p + 1, false);
    }
  }

  lemma {:induction false} EventsWithin(ledger: seq<Entry>, end: nat)
    requires Tiles(ledger, 0, end)
    ensures forall e | e in Events(ledger) :: e.offset + e.Width() <= end
    decreases |ledger|
  {
    if ledger != [] {
      EventsWithin(ledger[..|ledger| - 1], ledger[|ledger| - 1].offset);
    }
  }

  /** No frame of the reference scan covers a place another scanner in step with it stands at. */
  lemma NoFrameOver(m: nat, t: seq<byte>, c: Core, a: bool, k: Core, b: bool)
    requires View(t, c) && CanAdvance(m, c) && InStep(m, t, c, a) && NextEntry(m, c).FrameAt?
    requires View(t, k) && InStep(m, t, k, b) && Tiles(k.ledger, 0, k.offset)
    requires c.offset < k.offset
    ensures Advance(m, c).offset <= k.offset
  {
    hide Classify, NextEntry, Reference, Events, Tiles;
    var e := NextEntry(m, c);
    ReferenceTakes(m, t, c, a);
    ReferenceOffsets(m, t, k.offset, b);
    EventsWithin(k.ledger, k.offset);
    var all, before, rest := ReferenceEvents(m, t), Events(k.ledger), Reference(m, t, k.offset, b).events;
    var i := |Events(c.ledger)|;
    assert all[i] == e;
    assert all == before + rest;
    if i < |before| {
      assert e in before;
    }
  }

  /** From before the front no scanner in step with the reference jumps over it. */
  lemma NoJumpOver(m: nat, t: seq<byte>, n: nat, c: Core)
    requires Turning(m, t, n) && Follows(m, t, c) && CanAdvance(m, c)
    requires c.offset < Bytewise(m, t, n).offset
    ensures Advance(m, c).offset <= Bytewise(m, t, n).offset
  {
    hide Reference, Events, Tiles, Drain, Classify, NextPlausible, HeaderDigits;
    var k := Bytewise(m, t, n);
    var x, d := k.offset, Advance(m, c);
    WindowHolds(m, t, n);
    BytewiseFollows(m, t, n);
    MalformedIsBad(m, t);
    AheadIffBefore(m, t, k);
    if x < d.offset {
      assert c.pending[x - c.offset] == t[x] == STX;
      var a :| InStep(m, t, c, a);
      if NextEntry(m, c).FrameAt? {
        NoFrameOver(m, t, c, a, k, false);
        assert false;
      } else {
        assert Classify(m, c.pending, 0).BadHeader?;
        JumpIsHopeless(t, c);
        assert Hopeless(t, x);
        FrontNotHopeless(m, t, n);
        assert false;
      }
    }
  }

  /** The byte-by-byte scanner passes the malformed header from behind a decimal header. */
  lemma FrontNotHopeless(m: nat, t: seq<byte>, n: nat)
    requires Turning(m, t, n) && Bytewise(m, t, n).offset < |t|
    ensures !Hopeless(t, Bytewise(m, t, n).offset)
  {
    hide Reference, Drain, Overrun, Ambiguous, Malformed, Classify, Bytewise;
    var c, w := Bytewise(m, t, n), Window(m, t, n);
    WindowHolds(m, t, n);
    if Hopeless(t, c.offset) {
      var k :| c.offset < k < c.offset + 6 && k < |t| && !IsDigit(t[k]);
      var s := w.pending;
      assert s[k - c.offset] == t[k];
      assert |s| == 6 by {
        WaitingFront(m, c.pending);
      }
      assert !HeaderDigits(s, 0);
      SixBytesPass(m, t, w);
      assert false;
    }
  }

  /** Six bytes with a malformed header pass no STX behind it except up to a control byte behind that one. */
  lemma SixBytesPass(m: nat, t: seq<byte>, w: Core)
    requires Ambiguous(m, t) && View(t, w) && |w.pending| == 6
    requires w.pending[0] == STX && !HeaderDigits(w.pending, 0)
    requires w.offset < Malformed(m, t) < w.offset + 6 <= Reference(m, t, 0, false).end
    ensures Drain(m, w).offset <= Malformed(m, t)
  {
    hide Reference, Overrun, Ambiguous;
    var p := Malformed(m, t);
    var s, x := w.pending, p - w.offset;
    MalformedIsBad(m, t);
    assert s[x] == t[p] == STX;
    assert Classify(m, s, 0).BadHeader?;
    var d := Advance(m, w);
    var j := NextPlausible(s, 1);
    assert d.offset == w.offset + j;
    AdvanceView(m, t, w);
    hide Classify, Drain, NextEntry;
    JumpStops(s, x);
    assert t[w.offset + j] == s[j];
    if d.offset <= p {
      hide NextPlausible;
      DrainUnfold(m, w);
      ShortWindowStops(m, t, p, d);
    }
  }

  /** Before or at the front, or past the malformed header. */
  predicate Clear(m: nat, t: seq<byte>, n: nat, c: Core)
    requires n <= |t|
  {
    c.offset <= Bytewise(m, t, n).offset || Malformed(m, t) < c.offset
  }

  lemma AtTheFront(m: nat, t: seq<byte>, n: nat, c: Core)
    requires Turning(m, t, n) && View(t, c) && CanAdvance(m, c) && c.offset == Bytewise(m, t, n).offset
    ensures Malformed(m, t) < Drain(m, c).offset
  {
    hide Reference, Drain, Overrun, Classify;
    var k, w := Bytewise(m, t, n), Window(m, t, n);
    WindowHolds(m, t, n);
    MalformedIsBad(m, t);
    if |c.pending| < |w.pending| {
      assert c.pending <= k.pending;
      ShorterWaits(m, c.pending, k.pending);
      assert false;
    }
    DrainPasses(m, t, Malformed(m, t), w, c);
  }

  lemma {:induction false} DrainClear(m: nat, t: seq<byte>, n: nat, c: Core)
    requires Turning(m, t, n) && Follows(m, t, c) && c.offset <= Bytewise(m, t, n).offset
    ensures Clear(m, t, n, Drain(m, c))
    decreases |c.pending|
  {
    hide Follows, NextEntry, Classify, Malformed, Ambiguous;
    if CanAdvance(m, c) {
      if c.offset == Bytewise(m, t, n).offset {
        TurningView(m, t, c);
        AtTheFront(m, t, n, c);
      } else {
        NoJumpOver(m, t, n, c);
        AdvanceFollows(m, t, c);
        DrainClear(m, t, n, Advance(m, c));
      }
    }
  }

  lemma TurningView(m: nat, t: seq<byte>, c: Core)
    requires Follows(m, t, c)
    ensures View(t, c)
  {
  }

  lemma {:induction false} FeedClear(lim: Limits, t: seq<byte>, n: nat, c: Core, chunk: seq<byte>)
    requires lim.Valid() && HasRoom(lim, c) && Turning(lim.maxDataLength, t, n)
    requires Follows(lim.maxDataLength, t, c) && Clear(lim.maxDataLength, t, n, c) && Upcoming(t, c, chunk)
    ensures Follows(lim.maxDataLength, t, Feed(lim, c, chunk)) && Clear(lim.maxDataLength, t, n, Feed(lim, c, chunk))
    decreases |chunk|
  {
    var m := lim.maxDataLength;
    hide Turning, Follows, Malformed, Drain, Bytewise;
    if chunk != [] {
      var count := FeedCount(lim, c, chunk);
      var w := Receive(c, chunk[..count]);
      var d := Drain(m, w);
      FeedUnfold(lim, c, chunk);
      SliceFollows(m, t, c, chunk, count);
      SliceClear(m, t, n, c, chunk, count);
      FeedClear(lim, t, n, d, chunk[count..]);
    }
  }

  lemma SliceClear(m: nat, t: seq<byte>, n: nat, c: Core, chunk: seq<byte>, count: nat)
    requires Turning(m, t, n) && Follows(m, t, c) && Clear(m, t, n, c) && Upcoming(t, c, chunk) && count <= |chunk|
    ensures Clear(m, t, n, Drain(m, Receive(c, chunk[..count])))
  {
    hide Turning, Follows, Malformed, Drain, Bytewise;
    var w := Receive(c, chunk[..count]);
    DrainRests(m, w);
    if w.offset <= Malformed(m, t) {
      var seen := c.offset + |c.pending|;
      assert chunk[..count] == t[seen..seen + count];
      ReceiveFollows(m, t, c, chunk[..count]);
      DrainClear(m, t, n, w);
    }
  }

  lemma {:induction false} FeedAllClear(lim: Limits, t: seq<byte>, n: nat, c: Core, chunks: seq<seq<byte>>)
    requires lim.Valid() && HasRoom(lim, c) && Turning(lim.maxDataLength, t, n)
    requires Follows(lim.maxDataLength, t, c) && Clear(lim.maxDataLength, t, n, c) && Upcoming(t, c, Flatten(chunks))
    ensures Clear(lim.maxDataLength, t, n, FeedAll(lim, c, chunks))
    decreases |chunks|
  {
    hide Turning, Follows, Clear, Feed;
    if chunks != [] {
      var seen, first := c.offset + |c.pending|, chunks[0];
      assert first == Flatten(chunks)[..|first|] == t[seen..seen + |first|];
      assert Flatten(chunks[1..]) == Flatten(chunks)[|first|..] == t[seen + |first|..seen + |Flatten(chunks)|];
      FeedClear(lim, t, n, c, first);
      FeedAllClear(lim, t, n, Feed(lim, c, first), chunks[1..]);
    }
  }

  // ---------------------------------------------------------------- the exact condition

  /** The byte-by-byte scanner passes the malformed header of an ambiguous stream. */
  lemma FrontIsPassed(m: nat, t: seq<byte>)
    requires Ambiguous(m, t)
    ensures LastRest(m, t, Malformed(m, t), |t|) < |t|
  {
    hide Reference, Drain, Overrun, Classify, Ambiguous, Malformed;
    if LastRest(m, t, Malformed(m, t), |t|) == |t| {
      var c := Bytewise(m, t, |t|);
      BytewiseFollows(m, t, |t|);
      AheadIffBefore(m, t, c);
      NotAtEnd(m, t, c);
      assert false;
    }
  }

  lemma EmptyFollows(m: nat, t: seq<byte>)
    ensures Follows(m, t, EMPTY_CORE)
  {
    assert InStep(m, t, EMPTY_CORE, false);
  }

  /** No segmentation rests before the malformed header behind the front, unless the unfinished header begins
      within five bytes of it. */
  lemma RestsBeforeFront(lim: Limits, t: seq<byte>, head: seq<seq<byte>>)
    requires lim.Valid() && Flatten(head) <= t && Ambiguous(lim.maxDataLength, t)
    ensures var m, c := lim.maxDataLength, FeedAll(lim, EMPTY_CORE, head);
            c.offset <= Front(m, t) || Malformed(m, t) < c.offset || Reference(m, t, 0, false).end <= Front(m, t) + 5
  {
    var m := lim.maxDataLength;
    var n := LastRest(m, t, Malformed(m, t), |t|);
    hide Ambiguous, Malformed, Reference, FeedAll, Follows, Bytewise, Flatten, LastRest;
    FrontIsPassed(m, t);
    if Front(m, t) < Malformed(m, t) && Front(m, t) + 5 < Reference(m, t, 0, false).end {
      EmptyFollows(m, t);
      assert Flatten(head) == t[0..|Flatten(head)|];
      FeedAllClear(lim, t, n, EMPTY_CORE, head);
    }
  }

  lemma NothingReached(lim: Limits, t: seq<byte>)
    requires lim.Valid()
    ensures Reached(lim, t, [], EMPTY_CORE)
  {
  }

  /** Byte by byte is a segmentation for every framer. */
  lemma {:induction false} BytewiseReached(lim: Limits, t: seq<byte>, n: nat) returns (head: seq<seq<byte>>)
    requires lim.Valid() && n <= |t|
    ensures Reached(lim, t, head, Bytewise(lim.maxDataLength, t, n))
  {
    hide Drain, Classify, FeedAll, CanAdvance, Flatten;
    if n == 0 {
      head := [];
      NothingReached(lim, t);
    } else {
      var before := BytewiseReached(lim, t, n - 1);
      var c, next := Bytewise(lim.maxDataLength, t, n - 1), [t[n - 1]];
      assert next[..1] == next == t[n - 1..n];
      ReachedNext(lim, t, before, c, next, 1);
      head := before + [next];
    }
  }

  /** Some segmentation of a beginning straddles if and only if the bytes say so. */
  lemma StraddledExactly(lim: Limits, t: seq<byte>)
    requires lim.Valid()
    ensures Straddled(lim, t) <==> AmbiguousWithin(lim, t)
  {
    hide Reference, FeedAll, Ambiguous, Malformed, Front, CanAdvance;
    if Straddled(lim, t) {
      StraddledIsWithin(lim, t);
    }
    if AmbiguousWithin(lim, t) {
      WithinIsStraddled(lim, t);
    }
  }

  lemma StraddledIsWithin(lim: Limits, t: seq<byte>)
    requires lim.Valid() && Straddled(lim, t)
    ensures AmbiguousWithin(lim, t)
  {
    hide Reference, FeedAll, Ambiguous, Malformed, Front, CanAdvance;
    var m := lim.maxDataLength;
    var head :| Flatten(head) <= t && Straddles(lim, t, FeedAll(lim, EMPTY_CORE, head));
    var c := FeedAll(lim, EMPTY_CORE, head);
    var i :| Reference(m, t, 0, false).end < i < |t| && i < c.offset + lim.maxBufferBytes && t[i] == ACK;
    RestsBeforeFront(lim, t, head);
    AheadIffBefore(m, t, c);
    EndIsNear(m, t);
    assert i < Front(m, t) + lim.maxBufferBytes;
  }

  lemma EndIsNear(m: nat, t: seq<byte>)
    requires Ambiguous(m, t)
    ensures |t| < Reference(m, t, 0, false).end + 6
  {
  }

  lemma WithinIsStraddled(lim: Limits, t: seq<byte>)
    requires lim.Valid() && AmbiguousWithin(lim, t)
    ensures Straddled(lim, t)
  {
    hide Reference, FeedAll, Ambiguous, Malformed, CanAdvance;
    var m := lim.maxDataLength;
    var n := LastRest(m, t, Malformed(m, t), |t|);
    var c := Bytewise(m, t, n);
    var head := BytewiseReached(lim, t, n);
    BytewiseFollows(m, t, n);
    AheadIffBefore(m, t, c);
    assert Straddles(lim, t, c);
    assert Flatten(head) <= t;
  }

  /** One framer, whatever its buffer size, gives the reference events for every segmentation of a stream if and
      only if the stream is not ambiguous or every late ACK lies at least one buffer behind the front. */
  lemma FramerIndependence(lim: Limits, t: seq<byte>)
    requires lim.Valid()
    ensures (forall chunks | Flatten(chunks) == t ::
               Events(FinalLedger(lim, chunks)) == ReferenceEvents(lim.maxDataLength, t))
            <==> !AmbiguousWithin(lim, t)
  {
    hide AmbiguousWithin, Straddled, FinalLedger, ReferenceEvents;
    StraddledExactly(lim, t);
    if Straddled(lim, t) {
      var chunks := WithinDiffers(lim, t);
    } else {
      forall chunks | Flatten(chunks) == t
        ensures Events(FinalLedger(lim, chunks)) == ReferenceEvents(lim.maxDataLength, t)
      {
        OthersAgree(lim, t, chunks);
      }
    }
  }

  /** The front is the malformed header itself or begins a frame candidate that reaches it. */
  lemma FrontNearMalformed(m: nat, t: seq<byte>)
    requires Ambiguous(m, t)
    ensures Front(m, t) <= Malformed(m, t) < Front(m, t) + m + FRAME_OVERHEAD
  {
    hide Reference, Drain, Classify, Ambiguous, Malformed, Waiting;
    var n := LastRest(m, t, Malformed(m, t), |t|);
    FrontIsPassed(m, t);
    var c := Bytewise(m, t, n);
    if c.pending != [] {
      WaitingIsShort(m, c.pending);
    }
  }

  /** For a buffer that holds the whole stream the condition is ambiguity alone. */
  lemma WholeStreamFits(lim: Limits, t: seq<byte>)
    requires lim.Valid() && |t| <= lim.maxBufferBytes
    ensures AmbiguousWithin(lim, t) <==> Ambiguous(lim.maxDataLength, t)
  {
    hide Reference, Front;
  }
}
