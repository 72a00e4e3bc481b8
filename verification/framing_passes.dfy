/** What a scanner that holds more bytes passes: no less than one that holds fewer bytes from the same place. */
module FramingPasses {
  import opened RchBytes
  import opened FramingSpec
  import opened FramingRefinement
  import opened FramingTheorems
  import opened FramingWindows

  lemma MoreBytesSameControl(s: seq<byte>, u: seq<byte>, start: nat)
    requires start <= |s| && s <= u && NextControl(s, start) < |s|
    ensures NextControl(u, start) == NextControl(s, start)
  {
    var r, r' := NextControl(s, start), NextControl(u, start);
    assert u[r] == s[r];
    assert r' <= r;
    assert r' < |s| && u[r'] == s[r'];
  }

  /** A plausible control byte stays the first one: a header that ends behind it holds it as a byte that is no digit. */
  lemma MoreBytesSamePlausible(s: seq<byte>, u: seq<byte>, start: nat)
    requires start <= |s| && s <= u && FirstPlausible(s, start) < |s|
    ensures FirstPlausible(u, start) == FirstPlausible(s, start)
  {
    var r := FirstPlausible(s, start);
    assert u[r] == s[r] && Plausible(u, r);
    forall i | start <= i < r ensures !Plausible(u, i) {
      assert !Plausible(s, i) && u[i] == s[i];
      if u[i] == STX && i + 6 <= |u| {
        if i + 6 <= |s| {
          var k :| i < k < i + 6 && !IsDigit(s[k]);
          assert u[k] == s[k];
        } else {
          assert !IsDigit(u[r]);
        }
      }
    }
  }

  /** A buffer too short for a header never passes an STX in it. */
  lemma {:induction false} ShortWindowStops(m: nat, t: seq<byte>, p: nat, c: Core)
    requires View(t, c) && c.offset <= p < c.offset + |c.pending| && |c.pending| < 6 && t[p] == STX
    ensures Drain(m, c).offset <= p
    decreases |c.pending|
  {
    if CanAdvance(m, c) {
      assert c.pending[p - c.offset] == STX;
      AdvanceView(m, t, c);
      ShortWindowStops(m, t, p, Advance(m, c));
    }
  }

  /** A plausible STX before another STX is already plausible in any buffer that holds both. */
  lemma PlausibleBefore(s: seq<byte>, u: seq<byte>, f: nat, x: nat)
    requires s <= u && f < x < |s| && s[x] == STX && Plausible(u, f)
    ensures Plausible(s, f)
  {
    assert u[f] == s[f];
    if s[f] == STX {
      assert !IsDigit(u[x]);
      forall i | f < i < f + 6 ensures IsDigit(s[i]) {
        assert u[i] == s[i];
      }
    }
  }

  /** The malformed-header jump that passes the STX at x on some bytes passes it on more, or both jumps land alike. */
  lemma JumpPasses(s: seq<byte>, u: seq<byte>, x: nat)
    requires s <= u && 1 <= x < |s| && s[x] == STX && !Plausible(u, x)
    requires FirstPlausible(s, 1) == |s| ==> NextPlausible(s, 1) > x
    ensures NextPlausible(u, 1) == NextPlausible(s, 1) || NextPlausible(u, 1) > x
  {
    var f := FirstPlausible(u, 1);
    if FirstPlausible(s, 1) < |s| {
      MoreBytesSamePlausible(s, u, 1);
    } else if f == |u| {
      LastStxPasses(s, u, x);
    } else if f < x {
      PlausibleBefore(s, u, f, x);
    }
  }

  lemma LastStxPasses(s: seq<byte>, u: seq<byte>, x: nat)
    requires s <= u && 1 <= x < |s| && s[x] == STX
    requires LastStx(s, if 1 + 5 <= |s| then |s| - 5 else 1) > x
    ensures LastStx(u, if 1 + 5 <= |u| then |u| - 5 else 1) > x
  {
    var j := LastStx(s, if 1 + 5 <= |s| then |s| - 5 else 1);
    assert u[x] == s[x];
    assert j < |s| ==> u[j] == s[j];
  }

  /** One step: the scanner with more bytes takes the same step or passes p. */
  lemma StepPasses(m: nat, t: seq<byte>, p: nat, c: Core, d: Core)
    requires View(t, c) && View(t, d) && c.offset == d.offset && |c.pending| <= |d.pending|
    requires p < |t| && t[p] == STX && Classify(m, t, p).BadHeader?
    requires CanAdvance(m, c) && c.offset <= p < c.offset + |c.pending|
    requires p < Drain(m, Advance(m, c)).offset
    ensures CanAdvance(m, d)
    ensures Advance(m, c).offset == Advance(m, d).offset || p < Advance(m, d).offset
  {
    hide Drain, Classify, NextEntry, Advance, CanAdvance;
    SameVerdict(m, t, c, d);
    if !Classify(m, c.pending, 0).BadHeader? {
      BadNotHere(m, t, p, c);
      OtherStepSame(m, p - c.offset, c, d);
    } else if c.offset < p {
      BadStepPasses(m, t, p, c, d);
    } else {
      StepForward(m, d);
    }
  }

  lemma StepForward(m: nat, c: Core)
    requires CanAdvance(m, c)
    ensures c.offset < Advance(m, c).offset
  {
  }

  lemma BadNotHere(m: nat, t: seq<byte>, p: nat, c: Core)
    requires View(t, c) && CanAdvance(m, c) && !Classify(m, c.pending, 0).BadHeader?
    requires p < |t| && t[p] == STX && Classify(m, t, p).BadHeader? && c.offset <= p < c.offset + |c.pending|
    ensures c.offset < p && c.pending[p - c.offset] == STX
  {
    ClassifyStable(m, t, c);
  }

  /** An event or a range up to the next control byte is the same on more bytes. */
  lemma OtherStepSame(m: nat, x: nat, c: Core, d: Core)
    requires c.offset == d.offset && c.pending <= d.pending && CanAdvance(m, c) && CanAdvance(m, d)
    requires Classify(m, c.pending, 0) == Classify(m, d.pending, 0) && !Classify(m, c.pending, 0).BadHeader?
    requires 1 <= x < |c.pending| && c.pending[x] == STX
    ensures Advance(m, c).offset == Advance(m, d).offset
  {
    MoreBytesSameControl(c.pending, d.pending, 1);
  }

  lemma BadStepPasses(m: nat, t: seq<byte>, p: nat, c: Core, d: Core)
    requires View(t, c) && View(t, d) && c.offset == d.offset && c.pending <= d.pending
    requires p < |t| && t[p] == STX && Classify(m, t, p).BadHeader?
    requires CanAdvance(m, c) && CanAdvance(m, d) && c.offset < p < c.offset + |c.pending|
    requires Classify(m, c.pending, 0).BadHeader? && Classify(m, d.pending, 0).BadHeader?
    requires p < Drain(m, Advance(m, c)).offset
    ensures Advance(m, c).offset == Advance(m, d).offset || p < Advance(m, d).offset
  {
    hide Drain, Classify, CanAdvance, Plausible;
    var s, u, x := c.pending, d.pending, p - c.offset;
    assert s[x] == t[p];
    if Plausible(u, x) {
      PlausibleVerdict(m, t, d, x);
    }
    if FirstPlausible(s, 1) == |s| && NextPlausible(s, 1) <= x {
      AdvanceView(m, t, c);
      ShortWindowStops(m, t, p, Advance(m, c));
    }
    JumpPasses(s, u, x);
  }

  lemma SameVerdict(m: nat, t: seq<byte>, c: Core, d: Core)
    requires View(t, c) && View(t, d) && c.offset == d.offset && |c.pending| <= |d.pending|
    requires CanAdvance(m, c)
    ensures c.pending <= d.pending && CanAdvance(m, d) && Classify(m, d.pending, 0) == Classify(m, c.pending, 0)
  {
    var s, u := c.pending, d.pending;
    assert s == u[..|s|];
    if |s| >= 6 {
      assert HeaderDigits(s, 0) <==> HeaderDigits(u, 0) by {
        forall i | 0 < i < 6 ensures s[i] == u[i] {}
      }
    }
  }

  /** Draining more bytes from the same place passes a malformed header that draining fewer bytes passes. */
  lemma {:induction false} DrainPasses(m: nat, t: seq<byte>, p: nat, c: Core, d: Core)
    requires View(t, c) && View(t, d) && c.offset == d.offset && |c.pending| <= |d.pending|
    requires p < |t| && t[p] == STX && Classify(m, t, p).BadHeader?
    requires p < Drain(m, c).offset
    ensures p < Drain(m, d).offset
    decreases |c.pending|
  {
    hide Classify, NextEntry;
    if p < c.offset {
      DrainRests(m, d);
    } else {
      StepPasses(m, t, p, c, d);
      var c', d' := Advance(m, c), Advance(m, d);
      AdvanceView(m, t, c);
      AdvanceView(m, t, d);
      if p < d'.offset {
        DrainRests(m, d');
      } else {
        DrainPasses(m, t, p, c', d');
      }
    }
  }

  lemma WaitingFront(m: nat, s: seq<byte>)
    requires Waiting(m, s)
    ensures s[0] == STX && (6 <= |s| ==> HeaderDigits(s, 0))
  {
  }

  lemma DrainUnfold(m: nat, c: Core)
    requires CanAdvance(m, c)
    ensures Drain(m, c) == Drain(m, Advance(m, c))
  {
  }

  lemma JumpStops(s: seq<byte>, x: nat)
    requires |s| == 6 && 1 <= x < 6 && s[x] == STX
    ensures NextPlausible(s, 1) < 6 && IsControl(s[NextPlausible(s, 1)])
  {
  }

  lemma ShorterWaits(m: nat, s: seq<byte>, u: seq<byte>)
    requires Waiting(m, u) && s <= u && s != []
    ensures Waiting(m, s)
  {
    if |s| >= 6 {
      assert HeaderDigits(s, 0) by {
        forall i | 0 < i < 6 ensures IsDigit(s[i]) { assert s[i] == u[i]; }
      }
    }
  }
}
