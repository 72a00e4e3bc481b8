/** Which frames make a receipt: an opening, what may follow and a closing frame, and that no command of the request
    stream is lost between receipts. */
module ReceiptFrames {
  import opened Options
  import opened ReceiptModel
  import opened ReceiptInvariant

  // ---------------------------------------------------------------- the shape of a document

  /** A commercial document opens with a start command, alone or behind the counter query it took over, or with a sale;
      a managerial one with a boundary or a printed line. */
  predicate Opening(kind: Kind, frames: seq<Frame>) {
    if |frames| == 2 then
      kind.Commercial? && frames[0].command == Control(CounterQuery) && frames[1].command.Start?
    else
      && |frames| == 1
      && var c := frames[0].command;
      if kind.Commercial? then c.Start? || c.Item? || c.Total? else c.Boundary? || c.Management?
  }

  /** What may follow while the document stays open. */
  predicate Continuing(kind: Kind, c: Command) {
    || c.Text? || c.Unclassified?
    || (if kind.Commercial? then c.Item? || c.Total? || c == Control(CounterQuery) || c == Control(OtherControl)
        else c.Management?)
  }

  /** The control prefix alone or with one digit closes a commercial document, a boundary a managerial one. */
  predicate Closing(kind: Kind, c: Command) {
    if kind.Commercial? then c == Control(ControlKind.Bare) || c == Control(ControlKind.Numbered) else c.Boundary?
  }

  /** The documented request profile: a valid BCC, address 00 and class z. */
  predicate Sent(f: Frame) {
    f.bccValid && f.address == "00" && f.frameClass == 'z'
  }

  /** How many frames open the document. */
  function Head(frames: seq<Frame>): nat {
    if |frames| >= 2 && frames[0].command.Control? then 2 else 1
  }

  /** An opening, then what may follow, and behind it the closing frame of a complete document. */
  predicate Shaped(kind: Kind, frames: seq<Frame>, complete: bool) {
    var n, end := Head(frames), |frames| - if complete then 1 else 0;
    && n <= end
    && (forall i | 0 <= i < |frames| :: Sent(frames[i]))
    && Opening(kind, frames[..n])
    && (forall i | n <= i < end :: Continuing(kind, frames[i].command))
    && (complete ==> Closing(kind, frames[end].command))
  }

  lemma ShapedMore(kind: Kind, frames: seq<Frame>, f: Frame)
    requires Shaped(kind, frames, false) && Sent(f)
    ensures Continuing(kind, f.command) ==> Shaped(kind, frames + [f], false)
    ensures Closing(kind, f.command) ==> Shaped(kind, frames + [f], true)
  {
    var next, n := frames + [f], Head(frames);
    assert next[..n] == frames[..n];
    assert forall i | 0 <= i < |frames| :: next[i] == frames[i];
  }

  /** Where the document lies in the request stream, and what it complains about. */
  predicate Placed(d: Document) {
    && Shaped(d.kind, d.frames, d.complete)
    && d.startOffset == d.frames[0].streamOffset && d.endOffset == LastFrame(d.frames).endOffset
    && Complaints(d.kind, d.frames, if d.complete then d.issues else WithoutLast(d.issues))
    && (!d.complete ==> d.issues != [] && d.issues[|d.issues| - 1] == Issue(IncompleteDocument, LastFrame(d.frames).frameId))
  }

  function WithoutLast(issues: seq<Issue>): seq<Issue> {
    if issues == [] then [] else issues[..|issues| - 1]
  }

  /** A commercial document that begins with a sale lacks its start, and says so once; a managerial document may say
      that it lacks its opening boundary, if it begins with a printed line. */
  predicate Complaints(kind: Kind, frames: seq<Frame>, issues: seq<Issue>) {
    frames != [] &&
    var first := frames[0];
    if kind.Commercial? then
      issues == if first.command.Item? || first.command.Total? then [Issue(MissingCommercialStart, first.frameId)] else []
    else issues == [] || (first.command.Management? && issues == [Issue(MissingOpenBoundary, first.frameId)])
  }

  predicate ActivePlaced(b: Builder) {
    && Shaped(b.kind, b.frames, false) && b.startFrame == b.frames[0] && Complaints(b.kind, b.frames, b.issues)
  }

  predicate AllPlaced(a: Assembly) {
    && (forall i | 0 <= i < |a.documents| :: Placed(a.documents[i]))
    && (a.active.Some? ==> ActivePlaced(a.active.value))
    && (a.pendingStart.Some? ==> a.pendingStart.value.command == Control(CounterQuery) && Sent(a.pendingStart.value))
  }

  /** The frame is not the last one the active builder took. */
  predicate Fresh(a: Assembly, f: Frame) {
    && (a.active.Some? ==> a.active.value.frames != [] && LastFrame(a.active.value.frames).frameId != f.frameId)
    && (a.pendingStart.Some? ==> a.pendingStart.value.frameId != f.frameId)
  }

  lemma InvFresh(a: Assembly, f: Frame, last: int)
    requires Inv(a, last) && last < f.frameId
    ensures Fresh(a, f)
  {
  }

  lemma FinishPlaced(b: Builder, number: nat, complete: bool)
    requires b.frames != [] && b.startFrame == b.frames[0] && Shaped(b.kind, b.frames, complete)
    requires Complaints(b.kind, b.frames, b.issues)
    ensures Placed(FinishBuilder(b, number, complete))
  {
    hide Shaped;
    var d := FinishBuilder(b, number, complete);
    assert !complete ==> WithoutLast(d.issues) == b.issues;
  }

  /** Finishing what is still open. */
  lemma DropPlaced(a: Assembly, max: nat)
    requires AllPlaced(a) && HasFrames(a)
    ensures AllPlaced(FinishActive(a, false, max)) && FinishActive(a, false, max).active.None?
    ensures FinishActive(a, false, max).pendingStart == a.pendingStart
  {
    hide Placed, FinishBuilder, Shaped, Complaints;
    if a.active.Some? {
      FinishPlaced(a.active.value, |a.documents| + 1, false);
    }
  }

  /** Taking a frame that may follow. */
  lemma OwnPlaced(a: Assembly, f: Frame)
    requires AllPlaced(a) && Sent(f) && a.active.Some? && Fresh(a, f) && Continuing(a.active.value.kind, f.command)
    ensures AllPlaced(Own(a, f)) && Own(a, f).active.Some? && Own(a, f).active.value.kind == a.active.value.kind
  {
    hide Placed, Shaped, Continuing;
    ShapedMore(a.active.value.kind, a.active.value.frames, f);
  }

  /** Taking the closing frame and finishing. */
  lemma ClosePlaced(a: Assembly, f: Frame, max: nat)
    requires AllPlaced(a) && Sent(f) && a.active.Some? && Fresh(a, f) && Closing(a.active.value.kind, f.command)
    ensures HasFrames(Own(a, f)) && AllPlaced(FinishActive(Own(a, f), true, max))
  {
    hide Placed, FinishBuilder, Shaped, Complaints, Closing;
    var b := a.active.value;
    ShapedMore(b.kind, b.frames, f);
    ComplaintsStay(b.kind, b.frames, f, b.issues);
    FinishPlaced(Own(a, f).active.value, |a.documents| + 1, true);
  }

  lemma ComplaintsStay(kind: Kind, frames: seq<Frame>, f: Frame, issues: seq<Issue>)
    requires Complaints(kind, frames, issues)
    ensures Complaints(kind, frames + [f], issues)
  {
  }

  lemma OpenPlaced(a: Assembly, kind: Kind, f: Frame)
    requires AllPlaced(a) && Sent(f) && a.active.None? && Opening(kind, [f])
    ensures var o := Open(a, kind, f);
            && (kind.Managerial? || f.command.Start? ==> AllPlaced(o))
            && (kind.Managerial? && f.command.Management? ==> AllPlaced(Report(o, MissingOpenBoundary, f)))
            && (kind.Commercial? && !f.command.Start? ==> AllPlaced(Report(o, MissingCommercialStart, f)))
  {
    hide Placed;
    assert [f][..1] == [f];
  }

  /** The counter query and the start command that takes it over. */
  lemma TakeOverPlaced(a: Assembly, p: Frame, f: Frame)
    requires AllPlaced(a) && a.active.None? && Sent(p) && Sent(f)
    requires p.command == Control(CounterQuery) && f.command.Start? && p.frameId != f.frameId
    ensures AllPlaced(Own(Open(a, Commercial, p), f).(pendingStart := None))
  {
    hide Placed;
    var o := Own(Open(a, Commercial, p), f);
    assert o.active.value.frames == [p, f] && [p, f][..2] == [p, f];
  }

  lemma ForSalePlaced(a: Assembly, f: Frame, max: nat)
    requires AllPlaced(a) && Sent(f) && HasFrames(a) && Fresh(a, f) && (f.command.Item? || f.command.Total?)
    ensures AllPlaced(ForSale(a, f, max))
  {
    hide Placed, FinishActive, Open, Own, Report, ActivePlaced;
    if Active(a, Commercial) {
      OwnPlaced(a, f);
    } else {
      var done := FinishActive(a, false, max);
      DropPlaced(a, max);
      OpenPlaced(done, Commercial, f);
      OwnOpened(done, Commercial, f, None);
      OwnOpened(done, Commercial, f, Some(MissingCommercialStart));
    }
  }

  lemma ForLinePlaced(a: Assembly, f: Frame, max: nat)
    requires AllPlaced(a) && Sent(f) && HasFrames(a) && Fresh(a, f) && f.command.Management?
    ensures var o := ForLine(a, f, max); o.active.Some? && AllPlaced(Own(o, f)) && Own(o, f).active.Some?
  {
    hide Placed, FinishActive, Open, Own, Report, ActivePlaced;
    if a.active.None? {
      OpenPlaced(a, Managerial, f);
      OwnOpened(a, Managerial, f, None);
      OwnOpened(a, Managerial, f, Some(MissingOpenBoundary));
    } else if !Active(a, Managerial) {
      DropPlaced(a, max);
      OpenPlaced(FinishActive(a, false, max), Managerial, f);
      OwnOpened(FinishActive(a, false, max), Managerial, f, None);
    } else {
      OwnPlaced(a, f);
    }
  }

  /** Records and lifecycle moves do not touch the shape. */
  lemma RefinedPlaced(a: Assembly, b: Assembly)
    requires AllPlaced(a) && a.active.Some? && b.active.Some?
    requires b.documents == a.documents && b.pendingStart == a.pendingStart
    requires var p, q := a.active.value, b.active.value;
             q.frames == p.frames && q.kind == p.kind && q.issues == p.issues && q.startFrame == p.startFrame
    ensures AllPlaced(b)
  {
    hide Placed, Shaped, Complaints;
  }

  lemma ProcessPlaced(a: Assembly, f: Frame, max: nat)
    requires AllPlaced(a) && HasFrames(a) && Fresh(a, f)
    ensures AllPlaced(Process(a, f, max))
  {
    hide OnControl, OnStart, OnBoundary, OnManagement, OnItem, OnText, OnTotal, AllPlaced, Own;
    if IsRequestProfile(f) {
      match f.command
      case Control(_) => ControlPlaced(a, f, max);
      case Start => StartPlaced(a, f, max);
      case Boundary => BoundaryPlaced(a, f, max);
      case Management(_) => LinePlaced(a, f, max);
      case Item(_, _, _, _) => SalePlaced(a, f, max);
      case Text(_) => TextPlaced(a, f);
      case Total(_, _, _) => SalePlaced(a, f, max);
      case Display =>
      case Unclassified =>
        if a.active.Some? {
          OwnPlaced(a, f);
        }
    }
  }

  lemma ControlPlaced(a: Assembly, f: Frame, max: nat)
    requires AllPlaced(a) && Sent(f) && HasFrames(a) && Fresh(a, f) && f.command.Control?
    ensures AllPlaced(OnControl(a, f, max))
  {
    if Active(a, Commercial) {
      hide FinishActive, AllPlaced, Own;
      OwnFrame(a, f);
      if Closing(Commercial, f.command) {
        ClosePlaced(a, f, max);
      } else {
        OtherControls(f.command);
        OwnPlaced(a, f);
        RefinedPlaced(Own(a, f), OnControl(a, f, max));
      }
    } else {
      hide Placed, ActivePlaced;
    }
  }

  /** A control that does not close a commercial document may follow in it. */
  lemma OtherControls(c: Command)
    requires c.Control? && !Closing(Commercial, c)
    ensures Continuing(Commercial, c)
  {
    match c.kind
    case CounterQuery => assert c == Control(CounterQuery);
    case OtherControl => assert c == Control(OtherControl);
    case _ =>
  }

  lemma StartPlaced(a: Assembly, f: Frame, max: nat)
    requires AllPlaced(a) && Sent(f) && HasFrames(a) && Fresh(a, f) && f.command.Start?
    ensures AllPlaced(OnStart(a, f, max))
  {
    hide FinishActive, Open, Own, Placed, ActivePlaced;
    var done := FinishActive(a, false, max);
    DropPlaced(a, max);
    if a.pendingStart.Some? {
      TakeOverPlaced(done, a.pendingStart.value, f);
    } else {
      OpenPlaced(done, Commercial, f);
      OwnOpened(done, Commercial, f, None);
    }
  }

  lemma BoundaryPlaced(a: Assembly, f: Frame, max: nat)
    requires AllPlaced(a) && Sent(f) && HasFrames(a) && Fresh(a, f) && f.command.Boundary?
    ensures AllPlaced(OnBoundary(a, f, max))
  {
    hide FinishActive, Open, Own, Placed, ActivePlaced;
    if Active(a, Managerial) {
      ClosePlaced(a, f, max);
    } else {
      DropPlaced(a, max);
      OpenPlaced(FinishActive(a, false, max), Managerial, f);
    }
  }

  lemma LinePlaced(a: Assembly, f: Frame, max: nat)
    requires AllPlaced(a) && Sent(f) && HasFrames(a) && Fresh(a, f) && f.command.Management?
    ensures AllPlaced(OnManagement(a, f, max))
  {
    hide FinishActive, Open, Own, Report, AllPlaced, ChargeManagementLine, ShowsTotal;
    ForLinePlaced(a, f, max);
    RefinedPlaced(Own(ForLine(a, f, max), f), OnManagement(a, f, max));
  }

  lemma SalePlaced(a: Assembly, f: Frame, max: nat)
    requires AllPlaced(a) && Sent(f) && HasFrames(a) && Fresh(a, f) && (f.command.Item? || f.command.Total?)
    ensures f.command.Item? ==> AllPlaced(OnItem(a, f, max))
    ensures f.command.Total? ==> AllPlaced(OnTotal(a, f, max))
  {
    hide ForSale, AllPlaced, ChargeItem, ChargeTotal;
    ForSalePlaced(a, f, max);
    if f.command.Item? {
      RefinedPlaced(ForSale(a, f, max), OnItem(a, f, max));
    } else {
      RefinedPlaced(ForSale(a, f, max), OnTotal(a, f, max));
    }
  }

  lemma TextPlaced(a: Assembly, f: Frame)
    requires AllPlaced(a) && Sent(f) && HasFrames(a) && Fresh(a, f) && f.command.Text?
    ensures AllPlaced(OnText(a, f))
  {
    hide Own, AllPlaced, ChargeText;
    if a.active.Some? {
      OwnPlaced(a, f);
      if Active(a, Commercial) {
        RefinedPlaced(Own(a, f), OnText(a, f));
      }
    }
  }

  lemma {:induction false} ScanPlaced(frames: seq<Frame>, max: nat, limit: nat)
    requires IdsRise(frames)
    ensures AllPlaced(Scan(frames, max, limit))
  {
    hide Inv, Process, Fresh;
    if frames != [] {
      hide AllPlaced;
      var n := |frames| - 1;
      ScanPlaced(frames[..n], max, limit);
      ScanKeeps(frames[..n], max, limit);
      InvFresh(Scan(frames[..n], max, limit), frames[n], LastId(frames[..n]));
      ProcessPlaced(Scan(frames[..n], max, limit), frames[n], max);
    }
  }

  /** Every document has the shape of its kind, is complete exactly as its frames say, lies where its frames lie, and
      complains about a missing beginning or end. */
  lemma DocumentsAreShaped(frames: seq<Frame>, max: nat, limit: nat, i: nat)
    requires IdsRise(frames) && i < |Assemble(frames, max, limit).documents|
    ensures Placed(Assemble(frames, max, limit).documents[i])
  {
    hide Scan, FinishActive, Placed, ActivePlaced;
    ScanPlaced(frames, max, limit);
    DropPlaced(Scan(frames, max, limit), max);
  }

  /** Completeness can be read off the last frame. */
  lemma CompleteByLastFrame(kind: Kind, frames: seq<Frame>, complete: bool)
    requires Shaped(kind, frames, complete)
    ensures complete <==> Head(frames) < |frames| && Closing(kind, LastFrame(frames).command)
  {
  }

  // ---------------------------------------------------------------- no command is lost

  /** Some document, kept, dropped by the document limit or still open, has the frame. */
  predicate Has(a: Assembly, g: Frame) {
    || (exists i :: 0 <= i < |a.documents| && g in a.documents[i].frames)
    || (exists i :: 0 <= i < |a.omitted| && g in a.omitted[i].frames)
    || (a.active.Some? && g in a.active.value.frames)
  }

  /** b has what a has and perhaps the frame g. */
  ghost predicate Gains(a: Assembly, b: Assembly, g: Frame) {
    (forall h :: Has(a, h) ==> Has(b, h)) && (forall h :: Has(b, h) ==> Has(a, h) || h == g)
  }

  /** a and b have the same frames. */
  ghost predicate SameFrames(a: Assembly, b: Assembly) {
    forall h :: Has(a, h) <==> Has(b, h)
  }

  lemma FinishHas(a: Assembly, complete: bool, max: nat)
    requires HasFrames(a)
    ensures SameFrames(a, FinishActive(a, complete, max)) && FinishActive(a, complete, max).active.None?
  {
    hide FinishBuilder;
    if a.active.Some? {
      FinishCopies(a.active.value, |a.documents| + 1, complete);
      var t := FinishActive(a, complete, max);
      forall h ensures Has(a, h) <==> Has(t, h) {
        if Has(a, h) {
          FinishHasOld(a, t, h);
        }
      }
    }
  }

  lemma FinishHasOld(a: Assembly, t: Assembly, h: Frame)
    requires Has(a, h) && a.active.Some? && a.documents <= t.documents && a.omitted <= t.omitted
    requires (|t.documents| == |a.documents| + 1 && t.documents[|a.documents|].frames == a.active.value.frames)
             || (|t.omitted| == |a.omitted| + 1 && t.omitted[|a.omitted|].frames == a.active.value.frames)
    ensures Has(t, h)
  {
  }

  lemma OpenHas(a: Assembly, kind: Kind, f: Frame)
    requires a.active.None?
    ensures Gains(a, Open(a, kind, f), f) && Has(Open(a, kind, f), f) && Open(a, kind, f).active.Some?
  {
    var o := Open(a, kind, f);
    assert o.active.value.frames == [f];
  }

  lemma OwnHas(a: Assembly, f: Frame)
    requires a.active.Some? && (a.active.value.frames != [] && LastFrame(a.active.value.frames).frameId == f.frameId ==>
                                  LastFrame(a.active.value.frames) == f)
    ensures Gains(a, Own(a, f), f) && Has(Own(a, f), f)
  {
  }

  /** What keeps the frame lists. */
  lemma RefinedHas(a: Assembly, b: Assembly)
    requires a.documents == b.documents && a.omitted == b.omitted && a.active.Some? == b.active.Some?
    requires a.active.Some? ==> a.active.value.frames == b.active.value.frames
    ensures SameFrames(a, b)
  {
  }

  /** The commands that always belong to a document. */
  predicate Matters(f: Frame) {
    Sent(f) && (f.command.Item? || f.command.Total? || f.command.Start? || f.command.Boundary? || f.command.Management?)
  }

  lemma SaleHas(a: Assembly, f: Frame, max: nat)
    requires HasFrames(a) && Fresh(a, f)
    ensures Gains(a, ForSale(a, f, max), f) && Has(ForSale(a, f, max), f)
  {
    hide FinishActive, Open, Own, Report, Has;
    if Active(a, Commercial) {
      OwnHas(a, f);
    } else {
      var done := FinishActive(a, false, max);
      FinishHas(a, false, max);
      OpenHas(done, Commercial, f);
      OwnOpened(done, Commercial, f, Some(MissingCommercialStart));
      ReportHas(Open(done, Commercial, f), MissingCommercialStart, f);
    }
  }

  lemma ReportHas(a: Assembly, code: IssueCode, f: Frame)
    requires a.active.Some?
    ensures SameFrames(a, Report(a, code, f)) && Report(a, code, f).active.Some?
  {
    hide Has;
    RefinedHas(a, Report(a, code, f));
  }

  lemma LineHas(a: Assembly, f: Frame, max: nat)
    requires HasFrames(a) && Fresh(a, f)
    ensures var o := ForLine(a, f, max); o.active.Some? && Gains(a, Own(o, f), f) && Has(Own(o, f), f)
  {
    hide FinishActive, Open, Own, Report, Has;
    if a.active.None? {
      OpenHas(a, Managerial, f);
      OwnOpened(a, Managerial, f, Some(MissingOpenBoundary));
      ReportHas(Open(a, Managerial, f), MissingOpenBoundary, f);
    } else if !Active(a, Managerial) {
      FinishHas(a, false, max);
      OpenHas(FinishActive(a, false, max), Managerial, f);
      OwnOpened(FinishActive(a, false, max), Managerial, f, None);
    } else {
      OwnHas(a, f);
    }
  }

  lemma StartHas(a: Assembly, f: Frame, max: nat)
    requires HasFrames(a) && Fresh(a, f)
    ensures var b := OnStart(a, f, max);
            && (forall h :: Has(a, h) ==> Has(b, h)) && Has(b, f)
            && (forall h :: Has(b, h) ==> Has(a, h) || h == f || a.pendingStart == Some(h))
  {
    hide FinishActive, Open, Has;
    var first := if a.pendingStart.Some? then a.pendingStart.value else f;
    var done := FinishActive(a, false, max);
    FinishHas(a, false, max);
    OpenHas(done, Commercial, first);
    var o := Open(done, Commercial, first);
    OpenedIs(done, Commercial, first);
    OwnHas(o, f);
    hide Own;
    RefinedHas(Own(o, f), Own(o, f).(pendingStart := None));
  }

  lemma OpenedIs(a: Assembly, kind: Kind, f: Frame)
    ensures Open(a, kind, f).active.Some? && Open(a, kind, f).active.value.frames == [f]
    ensures Open(a, kind, f).pendingStart == a.pendingStart
  {
  }

  lemma BoundaryHas(a: Assembly, f: Frame, max: nat)
    requires HasFrames(a) && Fresh(a, f)
    ensures Gains(a, OnBoundary(a, f, max), f) && Has(OnBoundary(a, f, max), f)
  {
    hide FinishActive, Open, Own, Has;
    var b := OnBoundary(a, f, max);
    if Active(a, Managerial) {
      OwnHas(a, f);
      OwnStillHasFrames(a, f);
      FinishHas(Own(a, f), true, max);
      RefinedHas(FinishActive(Own(a, f), true, max), b);
    } else {
      FinishHas(a, false, max);
      OpenHas(FinishActive(a, false, max), Managerial, f);
      RefinedHas(Open(FinishActive(a, false, max), Managerial, f), b);
    }
  }

  lemma OwnStillHasFrames(a: Assembly, f: Frame)
    requires a.active.Some?
    ensures HasFrames(Own(a, f)) && Own(a, f).active.Some?
  {
  }

  lemma ControlHas(a: Assembly, f: Frame, max: nat)
    requires HasFrames(a) && Fresh(a, f) && f.command.Control?
    ensures Gains(a, OnControl(a, f, max), f)
  {
    hide FinishActive, Own, Has;
    var b := OnControl(a, f, max);
    if Active(a, Commercial) {
      OwnHas(a, f);
      OwnStillHasFrames(a, f);
      FinishHas(Own(a, f), true, max);
      if !Closes(Commercial, f.command) {
        RefinedHas(Own(a, f), b);
      }
    } else {
      RefinedHas(a, b);
    }
  }

  lemma SoldHas(a: Assembly, f: Frame, max: nat)
    requires HasFrames(a) && Fresh(a, f)
    ensures f.command.Item? ==> Gains(a, OnItem(a, f, max), f) && Has(OnItem(a, f, max), f)
    ensures f.command.Total? ==> Gains(a, OnTotal(a, f, max), f) && Has(OnTotal(a, f, max), f)
  {
    hide ForSale, Has, ChargeItem, ChargeTotal;
    SaleHas(a, f, max);
    if f.command.Item? {
      RefinedHas(ForSale(a, f, max), OnItem(a, f, max));
    } else if f.command.Total? {
      RefinedHas(ForSale(a, f, max), OnTotal(a, f, max));
    }
  }

  lemma OtherHas(a: Assembly, f: Frame)
    requires HasFrames(a) && Fresh(a, f)
    ensures Gains(a, OnOther(a, f), f) && (f.command.Text? ==> Gains(a, OnText(a, f), f))
  {
    hide Own, Has, ChargeText;
    if a.active.Some? {
      OwnHas(a, f);
      OwnStillHasFrames(a, f);
      if f.command.Text? && Active(a, Commercial) {
        RefinedHas(Own(a, f), OnText(a, f));
      }
    }
  }

  lemma PrintedHas(a: Assembly, f: Frame, max: nat)
    requires HasFrames(a) && Fresh(a, f) && f.command.Management?
    ensures Gains(a, OnManagement(a, f, max), f) && Has(OnManagement(a, f, max), f)
  {
    hide FinishActive, Open, Own, Report, Has, ChargeManagementLine, ShowsTotal;
    LineHas(a, f, max);
    OwnStillHasFrames(ForLine(a, f, max), f);
    RefinedHas(Own(ForLine(a, f, max), f), OnManagement(a, f, max));
  }

  /** One frame: nothing is lost, and nothing but this frame and the remembered query is added. */
  lemma ProcessHas(a: Assembly, f: Frame, max: nat)
    requires HasFrames(a) && Fresh(a, f)
    ensures var b := Process(a, f, max);
            && (forall h :: Has(a, h) ==> Has(b, h)) && (Matters(f) ==> Has(b, f))
            && (forall h :: Has(b, h) ==> Has(a, h) || h == f || a.pendingStart == Some(h))
  {
    hide Has, OnControl, OnStart, OnBoundary, OnManagement, OnItem, OnText, OnTotal, OnOther;
    if IsRequestProfile(f) {
      match f.command
      case Control(_) => ControlHas(a, f, max);
      case Start => StartHas(a, f, max);
      case Boundary => BoundaryHas(a, f, max);
      case Management(_) => PrintedHas(a, f, max);
      case Item(_, _, _, _) => SoldHas(a, f, max);
      case Text(_) => OtherHas(a, f);
      case Total(_, _, _) => SoldHas(a, f, max);
      case Display =>
      case Unclassified => OtherHas(a, f);
    }
  }

  lemma SalePending(a: Assembly, f: Frame, max: nat)
    requires HasFrames(a)
    ensures ForSale(a, f, max).pendingStart == a.pendingStart && ForLine(a, f, max).pendingStart == a.pendingStart
  {
    hide FinishActive, NewBuilder, AddFrame;
    FinishPending(a, false, max);
  }

  lemma ControlPending(a: Assembly, f: Frame, max: nat)
    requires HasFrames(a) && f.command.Control?
    ensures var p := OnControl(a, f, max).pendingStart; p.Some? ==> p == a.pendingStart || p == Some(f)
  {
    if Active(a, Commercial) {
      hide FinishActive, Own;
      OwnFrame(a, f);
      OwnStillHasFrames(a, f);
      FinishPending(Own(a, f), true, max);
    }
  }

  /** A remembered query is an earlier one or this frame. */
  lemma PendingFrom(a: Assembly, f: Frame, max: nat)
    requires HasFrames(a)
    ensures var p := Process(a, f, max).pendingStart; p.Some? ==> p == a.pendingStart || p == Some(f)
  {
    hide OnControl, FinishActive, ForSale, ForLine, Own, MoveTo, ChargeManagementLine, ChargeItem, ChargeTotal, ChargeText, ShowsTotal;
    SalePending(a, f, max);
    if a.active.Some? {
      OwnFrame(a, f);
    }
    if IsRequestProfile(f) {
      if f.command.Control? {
        ControlPending(a, f, max);
      } else if f.command.Management? {
        LinePending(a, f, max);
      }
    }
  }

  lemma LinePending(a: Assembly, f: Frame, max: nat)
    requires HasFrames(a) && f.command.Management?
    ensures OnManagement(a, f, max).pendingStart == ForLine(a, f, max).pendingStart
  {
    hide FinishActive, NewBuilder, AddFrame, ChargeManagementLine, ShowsTotal;
  }

  lemma {:induction false} ScanHas(frames: seq<Frame>, max: nat, limit: nat)
    requires IdsRise(frames)
    ensures var a := Scan(frames, max, limit);
            && (forall h | Has(a, h) :: h in frames) && (a.pendingStart.Some? ==> a.pendingStart.value in frames)
            && (forall i | 0 <= i < |frames| && Matters(frames[i]) :: Has(a, frames[i]))
  {
    hide Inv, Process, Fresh, Matters;
    if frames != [] {
      hide Has;
      var n := |frames| - 1;
      var before := Scan(frames[..n], max, limit);
      ScanHas(frames[..n], max, limit);
      ScanKeeps(frames[..n], max, limit);
      InvFresh(before, frames[n], LastId(frames[..n]));
      ProcessHas(before, frames[n], max);
      PendingFrom(before, frames[n], max);
      forall i | 0 <= i < |frames| && Matters(frames[i]) ensures Has(Scan(frames, max, limit), frames[i]) {
        assert i < n ==> frames[i] == frames[..n][i];
      }
    }
  }

  /** Every sale, start, boundary and printed line of the stream is in some document, kept or dropped by the document
      limit, and every frame of a document comes from the stream. */
  lemma NoCommandIsLost(frames: seq<Frame>, max: nat, limit: nat)
    requires IdsRise(frames)
    ensures var a := Assemble(frames, max, limit);
            && (forall i | 0 <= i < |frames| && Matters(frames[i]) :: Has(a, frames[i]))
            && (forall h | Has(a, h) :: h in frames)
  {
    hide Scan, FinishActive, Has, Matters;
    ScanHas(frames, max, limit);
    FinishHas(Scan(frames, max, limit), false, max);
  }
}
