/** How receipts end: the last transition of each log leaves the state that the document's own frames led to, and no
    more documents than the limit are kept, with every issue of the kept ones reported in their order. The state is
    computed from the frames alone; the builder's own state is proved to be it. */
module ReceiptEndings {
  import opened Options
  import opened ReceiptModel
  import opened ReceiptInvariant
  import opened ReceiptFrames

  // ---------------------------------------------------------------- the state a document was in

  /** The lifecycle state that the frames of an open document lead to: a total begins the payment, a control after it
      the postlude. */
  function StateAfter(kind: Kind, frames: seq<Frame>): State {
    if kind.Managerial? then ManagementBody
    else if frames == [] then CommercialBody
    else
      var before, c := StateAfter(kind, frames[..|frames| - 1]), LastFrame(frames).command;
      if c.Total? then CommercialPayment
      else if c.Control? && before.CommercialPayment? then CommercialPostlude
      else before
  }

  lemma StateAppend(kind: Kind, frames: seq<Frame>, f: Frame)
    ensures StateAfter(kind, frames + [f]) ==
            if kind.Managerial? then ManagementBody
            else if f.command.Total? then CommercialPayment
            else if f.command.Control? && StateAfter(kind, frames).CommercialPayment? then CommercialPostlude
            else StateAfter(kind, frames)
  {
    assert (frames + [f])[..|frames|] == frames;
  }

  /** How the document ended: out of the state its frames had led to, at its last frame. */
  predicate Ended(d: Document) {
    && d.frames != [] && d.transitions != []
    && d.transitions[|d.transitions| - 1] ==
       Transition(StateAfter(d.kind, if d.complete then d.frames[..|d.frames| - 1] else d.frames),
                  if d.complete then Complete else Incomplete, LastFrame(d.frames).frameId)
  }

  predicate ActiveStated(b: Builder) {
    b.frames != [] && b.state == StateAfter(b.kind, b.frames)
  }

  predicate AllStated(a: Assembly) {
    && (forall i | 0 <= i < |a.documents| :: Ended(a.documents[i]))
    && (a.active.Some? ==> ActiveStated(a.active.value))
    && (a.pendingStart.Some? ==> a.pendingStart.value.command == Control(CounterQuery))
  }

  lemma StateStays(kind: Kind, frames: seq<Frame>)
    ensures var s := StateAfter(kind, frames);
            s.CommercialBody? || s.CommercialPayment? || s.CommercialPostlude? || s.ManagementBody?
  {
  }

  lemma FinishEnds(b: Builder, number: nat, complete: bool)
    requires b.frames != []
    requires b.state == StateAfter(b.kind, if complete then b.frames[..|b.frames| - 1] else b.frames)
    ensures Ended(FinishBuilder(b, number, complete))
  {
    StateStays(b.kind, b.frames);
    StateStays(b.kind, b.frames[..|b.frames| - 1]);
  }

  lemma DropStated(a: Assembly, max: nat)
    requires AllStated(a) && HasFrames(a)
    ensures AllStated(FinishActive(a, false, max)) && FinishActive(a, false, max).active.None?
    ensures FinishActive(a, false, max).pendingStart == a.pendingStart
  {
    hide Ended, FinishBuilder, StateAfter;
    if a.active.Some? {
      FinishEnds(a.active.value, |a.documents| + 1, false);
    }
  }

  lemma CloseStated(a: Assembly, f: Frame, max: nat)
    requires AllStated(a) && a.active.Some? && Fresh(a, f)
    ensures HasFrames(Own(a, f)) && AllStated(FinishActive(Own(a, f), true, max))
  {
    hide Ended, FinishBuilder, StateAfter;
    var b, o := a.active.value, Own(a, f);
    assert o.active.value.frames == b.frames + [f] && (b.frames + [f])[..|b.frames|] == b.frames;
    FinishEnds(o.active.value, |a.documents| + 1, true);
  }

  /** Taking a frame that moves nothing. */
  lemma OwnStated(a: Assembly, f: Frame)
    requires AllStated(a) && a.active.Some? && Fresh(a, f) && !f.command.Total?
    requires f.command.Control? ==> !a.active.value.state.CommercialPayment?
    ensures AllStated(Own(a, f))
  {
    hide Ended, StateAfter;
    var b := a.active.value;
    StateAppend(b.kind, b.frames, f);
    if b.kind.Managerial? {
      ManagerialState(b.frames);
    }
  }

  lemma ManagerialState(frames: seq<Frame>)
    ensures StateAfter(Managerial, frames) == ManagementBody
  {
  }

  lemma OpenStated(a: Assembly, kind: Kind, f: Frame)
    requires AllStated(a) && a.active.None? && !f.command.Total?
    ensures AllStated(Open(a, kind, f))
  {
    hide Ended;
    StateAppend(kind, [], f);
    assert [] + [f] == [f];
  }

  /** A payment begins with the total that the builder has just taken or been opened on. */
  lemma PaymentStated(a: Assembly, f: Frame)
    requires a.active.Some? && a.active.value.kind.Commercial? && a.active.value.frames != []
    requires LastFrame(a.active.value.frames) == f && f.command.Total?
    requires forall i | 0 <= i < |a.documents| :: Ended(a.documents[i])
    requires a.pendingStart.Some? ==> a.pendingStart.value.command == Control(CounterQuery)
    ensures AllStated(a.(active := Some(MoveTo(a.active.value, CommercialPayment, f))))
  {
    hide Ended;
  }

  lemma ForSaleStated(a: Assembly, f: Frame, max: nat)
    requires AllStated(a) && HasFrames(a) && Fresh(a, f)
    ensures var o := ForSale(a, f, max);
            && (forall i | 0 <= i < |o.documents| :: Ended(o.documents[i])) && o.pendingStart == a.pendingStart
            && LastFrame(o.active.value.frames) == f
            && (f.command.Item? ==> AllStated(o))
  {
    hide Ended, FinishActive, StateAfter;
    if Active(a, Commercial) {
      if f.command.Item? {
        OwnStated(a, f);
      }
    } else {
      DropStated(a, max);
      var done := FinishActive(a, false, max);
      if f.command.Item? {
        OpenStated(done, Commercial, f);
      }
    }
  }

  lemma SaleStated(a: Assembly, f: Frame, max: nat)
    requires AllStated(a) && HasFrames(a) && Fresh(a, f)
    ensures f.command.Item? ==> AllStated(OnItem(a, f, max))
    ensures f.command.Total? ==> AllStated(OnTotal(a, f, max))
  {
    hide Ended, ForSale, StateAfter, ChargeItem, ChargeTotal, MoveTo;
    ForSaleStated(a, f, max);
    if f.command.Total? {
      var o := ForSale(a, f, max);
      PaymentStated(Charge(o, ChargeTotal(Account(o), f.command.cents, f.frameId)), f);
    }
  }

  lemma ControlStated(a: Assembly, f: Frame, max: nat)
    requires AllStated(a) && HasFrames(a) && Fresh(a, f) && f.command.Control?
    ensures AllStated(OnControl(a, f, max))
  {
    if Active(a, Commercial) {
      hide Ended, FinishActive, StateAfter;
      CloseStated(a, f, max);
      StateAppend(Commercial, a.active.value.frames, f);
    } else {
      hide Ended, StateAfter;
    }
  }

  lemma OpenersStated(a: Assembly, f: Frame, max: nat)
    requires AllStated(a) && HasFrames(a) && Fresh(a, f)
    ensures f.command.Start? ==> AllStated(OnStart(a, f, max))
    ensures f.command.Boundary? ==> AllStated(OnBoundary(a, f, max))
  {
    hide Ended, FinishActive, StateAfter, Own, Open, AllStated;
    DropStated(a, max);
    var done := FinishActive(a, false, max);
    if f.command.Start? {
      PendingCounter(a);
      var first := if a.pendingStart.Some? then a.pendingStart.value else f;
      OpenStated(done, Commercial, first);
      OpenedIs(done, Commercial, first);
      if a.pendingStart.Some? {
        OwnStated(Open(done, Commercial, first), f);
      } else {
        OwnOpened(done, Commercial, f, None);
      }
      ForgetStated(Own(Open(done, Commercial, first), f));
    } else if f.command.Boundary? {
      if Active(a, Managerial) {
        CloseStated(a, f, max);
        ForgetStated(FinishActive(Own(a, f), true, max));
      } else {
        OpenStated(done, Managerial, f);
        ForgetStated(Open(done, Managerial, f));
      }
    }
  }

  lemma PendingCounter(a: Assembly)
    requires AllStated(a)
    ensures a.pendingStart.Some? ==> a.pendingStart.value.command == Control(CounterQuery)
  {
  }

  lemma ForgetStated(a: Assembly)
    requires AllStated(a)
    ensures AllStated(a.(pendingStart := None))
  {
    hide Ended, StateAfter;
  }

  lemma LineStated(a: Assembly, f: Frame, max: nat)
    requires AllStated(a) && HasFrames(a) && Fresh(a, f) && f.command.Management?
    ensures AllStated(OnManagement(a, f, max))
  {
    hide Ended, FinishActive, StateAfter, ChargeManagementLine, ShowsTotal;
    if a.active.None? {
      OpenStated(a, Managerial, f);
    } else if !Active(a, Managerial) {
      DropStated(a, max);
      OpenStated(FinishActive(a, false, max), Managerial, f);
    } else {
      OwnStated(a, f);
    }
  }

  lemma TextStated(a: Assembly, f: Frame)
    requires AllStated(a) && HasFrames(a) && Fresh(a, f) && !f.command.Total? && !f.command.Control?
    ensures AllStated(OnOther(a, f)) && (f.command.Text? ==> AllStated(OnText(a, f)))
  {
    hide Ended, StateAfter, ChargeText;
    if a.active.Some? {
      OwnStated(a, f);
    }
  }

  lemma ProcessStated(a: Assembly, f: Frame, max: nat)
    requires AllStated(a) && HasFrames(a) && Fresh(a, f)
    ensures AllStated(Process(a, f, max))
  {
    hide AllStated, OnControl, OnStart, OnBoundary, OnManagement, OnItem, OnText, OnTotal, OnOther;
    if IsRequestProfile(f) {
      match f.command
      case Control(_) => ControlStated(a, f, max);
      case Start => OpenersStated(a, f, max);
      case Boundary => OpenersStated(a, f, max);
      case Management(_) => LineStated(a, f, max);
      case Item(_, _, _, _) => SaleStated(a, f, max);
      case Text(_) => TextStated(a, f);
      case Total(_, _, _) => SaleStated(a, f, max);
      case Display =>
      case Unclassified => TextStated(a, f);
    }
  }

  lemma {:induction false} ScanStated(frames: seq<Frame>, max: nat, limit: nat)
    requires IdsRise(frames)
    ensures AllStated(Scan(frames, max, limit))
  {
    hide Inv, Process, Fresh;
    if frames != [] {
      hide AllStated;
      var n := |frames| - 1;
      ScanStated(frames[..n], max, limit);
      ScanKeeps(frames[..n], max, limit);
      InvFresh(Scan(frames[..n], max, limit), frames[n], LastId(frames[..n]));
      ProcessStated(Scan(frames[..n], max, limit), frames[n], max);
    }
  }

  /** Every document's log ends with the step out of the state that its own frames led to. */
  lemma DocumentsEndInState(frames: seq<Frame>, max: nat, limit: nat, i: nat)
    requires IdsRise(frames) && i < |Assemble(frames, max, limit).documents|
    ensures Ended(Assemble(frames, max, limit).documents[i])
  {
    hide Scan, FinishActive, Ended, ActiveStated;
    ScanStated(frames, max, limit);
    DropStated(Scan(frames, max, limit), max);
  }

  // ---------------------------------------------------------------- the document limit

  /** The issues of all documents, in their order. */
  function IssuesOf(documents: seq<Document>): seq<Issue> {
    if documents == [] then [] else IssuesOf(documents[..|documents| - 1]) + documents[|documents| - 1].issues
  }

  /** Documents are dropped only when the limit is reached, and the first one dropped is noticed; the other issues are
      those of the documents. */
  predicate Limited(a: Assembly, max: nat) {
    && |a.documents| <= max
    && (a.omitted != [] <==> a.limitReported) && (a.omitted != [] ==> |a.documents| == max)
    && a.issues == IssuesOf(a.documents) +
         if a.omitted == [] then [] else [Issue(DocumentLimitExceeded, a.omitted[0].startFrame.frameId)]
  }

  lemma IssuesAppend(documents: seq<Document>, d: Document)
    ensures IssuesOf(documents + [d]) == IssuesOf(documents) + d.issues
  {
    assert (documents + [d])[..|documents|] == documents;
  }

  lemma FinishLimited(a: Assembly, complete: bool, max: nat)
    requires Limited(a, max) && HasFrames(a)
    ensures Limited(FinishActive(a, complete, max), max) && FinishActive(a, complete, max).active.None?
  {
    hide FinishBuilder, IssuesOf;
    if a.active.Some? {
      var d := FinishBuilder(a.active.value, |a.documents| + 1, complete);
      var t := FinishActive(a, complete, max);
      if |a.documents| < max {
        IssuesAppend(a.documents, d);
        assert a.omitted == [];
        assert t.issues == IssuesOf(t.documents) + [];
      } else if a.omitted == [] {
        assert t.omitted == [a.active.value];
      } else {
        assert t.omitted[0] == a.omitted[0];
      }
    }
  }

  lemma OwnLimited(a: Assembly, f: Frame, max: nat)
    requires Limited(a, max) && a.active.Some?
    ensures Limited(Own(a, f), max) && Own(a, f).active.Some?
  {
  }

  lemma OpenLimited(a: Assembly, kind: Kind, f: Frame, code: IssueCode, max: nat)
    requires Limited(a, max) && a.active.None?
    ensures Limited(Open(a, kind, f), max) && Limited(Report(Open(a, kind, f), code, f), max)
  {
  }

  lemma SameLimited(a: Assembly, b: Assembly, max: nat)
    requires Limited(a, max) && a.active.Some? && b.active.Some?
    requires b.documents == a.documents && b.omitted == a.omitted && b.issues == a.issues && b.limitReported == a.limitReported
    ensures Limited(b, max)
  {
  }

  lemma ForgetLimited(a: Assembly, p: Option<Frame>, max: nat)
    requires Limited(a, max)
    ensures Limited(a.(pendingStart := p), max)
  {
  }

  lemma ForSaleLimited(a: Assembly, f: Frame, max: nat)
    requires Limited(a, max) && HasFrames(a)
    ensures Limited(ForSale(a, f, max), max)
  {
    hide Limited, FinishActive, Own, Open, Report;
    if Active(a, Commercial) {
      OwnLimited(a, f, max);
    } else {
      FinishLimited(a, false, max);
      OpenLimited(FinishActive(a, false, max), Commercial, f, MissingCommercialStart, max);
      OwnOpened(FinishActive(a, false, max), Commercial, f, Some(MissingCommercialStart));
    }
  }

  lemma ForLineLimited(a: Assembly, f: Frame, max: nat)
    requires Limited(a, max) && HasFrames(a)
    ensures ForLine(a, f, max).active.Some? && Limited(Own(ForLine(a, f, max), f), max) && Own(ForLine(a, f, max), f).active.Some?
  {
    hide Limited, FinishActive, Own, Open, Report;
    FinishLimited(a, false, max);
    if a.active.None? {
      OpenLimited(a, Managerial, f, MissingOpenBoundary, max);
      OwnOpened(a, Managerial, f, Some(MissingOpenBoundary));
    } else if !Active(a, Managerial) {
      OpenLimited(FinishActive(a, false, max), Managerial, f, MissingOpenBoundary, max);
      OwnOpened(FinishActive(a, false, max), Managerial, f, None);
    } else {
      OwnLimited(a, f, max);
    }
  }

  lemma ProcessLimited(a: Assembly, f: Frame, max: nat)
    requires Limited(a, max) && HasFrames(a)
    ensures Limited(Process(a, f, max), max)
  {
    hide Limited, FinishActive, Own, Open, ForSale, ChargeItem, ChargeTotal, ChargeText, ChargeManagementLine, ShowsTotal, Report;
    if IsRequestProfile(f) {
      match f.command
      case Control(_) => ControlLimited(a, f, max);
      case Start => OpenersLimited(a, f, max);
      case Boundary => OpenersLimited(a, f, max);
      case Management(_) =>
        ForLineLimited(a, f, max);
        SameLimited(Own(ForLine(a, f, max), f), OnManagement(a, f, max), max);
      case Item(_, _, _, _) =>
        ForSaleLimited(a, f, max);
        SameLimited(ForSale(a, f, max), OnItem(a, f, max), max);
      case Text(_) => TextLimited(a, f, max);
      case Total(_, _, _) =>
        ForSaleLimited(a, f, max);
        SameLimited(ForSale(a, f, max), OnTotal(a, f, max), max);
      case Display =>
      case Unclassified => TextLimited(a, f, max);
    }
  }

  lemma TextLimited(a: Assembly, f: Frame, max: nat)
    requires Limited(a, max) && HasFrames(a)
    ensures Limited(OnOther(a, f), max) && (f.command.Text? ==> Limited(OnText(a, f), max))
  {
    hide Limited, Own, ChargeText;
    if a.active.Some? {
      OwnLimited(a, f, max);
      if f.command.Text? && Active(a, Commercial) {
        SameLimited(Own(a, f), OnText(a, f), max);
      }
    }
  }

  lemma ControlLimited(a: Assembly, f: Frame, max: nat)
    requires Limited(a, max) && HasFrames(a) && f.command.Control?
    ensures Limited(OnControl(a, f, max), max)
  {
    hide Limited, FinishActive, Own;
    if Active(a, Commercial) {
      OwnLimited(a, f, max);
      OwnStillHasFrames(a, f);
      FinishLimited(Own(a, f), true, max);
      if !Closes(Commercial, f.command) {
        SameLimited(Own(a, f), OnControl(a, f, max), max);
      }
    } else {
      ForgetLimited(a, if f.command.kind.CounterQuery? then Some(f) else None, max);
    }
  }

  lemma OpenersLimited(a: Assembly, f: Frame, max: nat)
    requires Limited(a, max) && HasFrames(a)
    ensures Limited(OnStart(a, f, max), max) && Limited(OnBoundary(a, f, max), max)
  {
    hide Limited, FinishActive, Own, Open;
    var done := FinishActive(a, false, max);
    FinishLimited(a, false, max);
    var first := if a.pendingStart.Some? then a.pendingStart.value else f;
    OpenLimited(done, Commercial, first, MissingCommercialStart, max);
    OpenedIs(done, Commercial, first);
    OwnLimited(Open(done, Commercial, first), f, max);
    ForgetLimited(Own(Open(done, Commercial, first), f), None, max);
    if Active(a, Managerial) {
      OwnLimited(a, f, max);
      OwnStillHasFrames(a, f);
      FinishLimited(Own(a, f), true, max);
      ForgetLimited(FinishActive(Own(a, f), true, max), None, max);
    } else {
      OpenLimited(done, Managerial, f, MissingOpenBoundary, max);
      ForgetLimited(Open(done, Managerial, f), None, max);
    }
  }

  lemma {:induction false} ScanLimited(frames: seq<Frame>, max: nat, limit: nat)
    ensures Limited(Scan(frames, max, limit), max)
  {
    if frames != [] {
      hide Limited, Process;
      ScanLimited(frames[..|frames| - 1], max, limit);
      ProcessLimited(Scan(frames[..|frames| - 1], max, limit), frames[|frames| - 1], max);
    }
  }

  /** No more documents than the limit are kept, and one is dropped only when it is reached; the issues are those of
      the kept documents in their order, and behind them one notice for the first document dropped. */
  lemma DocumentLimitKept(frames: seq<Frame>, max: nat, limit: nat)
    ensures var a := Assemble(frames, max, limit);
            && |a.documents| <= max && (a.omitted != [] ==> |a.documents| == max)
            && a.issues == IssuesOf(a.documents) +
                 if a.omitted == [] then [] else [Issue(DocumentLimitExceeded, a.omitted[0].startFrame.frameId)]
  {
    hide Scan, FinishActive;
    ScanLimited(frames, max, limit);
    FinishLimited(Scan(frames, max, limit), false, max);
  }
}
