/** What every request frame keeps while receipt documents are assembled: the budget equals the records of all
    builders, every frame belongs to one document at most, the documents' last frames rise, and each log is a path
    of the lifecycle. The lemmas follow the code: first the primitive moves on one builder, then opening, owning
    and finishing, then one lemma for each kind of command, and finally the scan over all frames of a
    stream. */
module ReceiptInvariant {
  import opened Options
  import opened ReceiptModel

  // ---------------------------------------------------------------- the semantic budget

  function DocumentFields(documents: seq<Document>): nat {
    if documents == [] then 0 else DocumentFields(documents[..|documents| - 1]) + documents[|documents| - 1].fields.Count()
  }

  function BuilderFields(builders: seq<Builder>): nat {
    if builders == [] then 0 else BuilderFields(builders[..|builders| - 1]) + builders[|builders| - 1].fields.Count()
  }

  function ActiveFields(a: Assembly): nat {
    if a.active.Some? then a.active.value.fields.Count() else 0
  }

  /** Every unit of the budget is a record that exists in a finished, an omitted or the active builder. */
  predicate Conserved(a: Assembly) {
    && a.budget.used <= a.budget.limit
    && a.budget.used == DocumentFields(a.documents) + BuilderFields(a.omitted) + ActiveFields(a)
  }

  /** The charge is exactly the growth of the fields, and stays within the limit. */
  predicate Fair(c: Charged, d: Charged) {
    && d.budget.limit == c.budget.limit
    && d.fields.Count() - c.fields.Count() == d.budget.used - c.budget.used
    && c.budget.used <= d.budget.used
    && (c.budget.used <= c.budget.limit ==> d.budget.used <= d.budget.limit)
  }

  lemma {:induction false} AmountsFair(matches: seq<Option<int>>, b: Budget, frameId: nat)
    ensures var a := AmountFields(matches, b, frameId);
            && a.budget.limit == b.limit && a.budget.used == b.used + |a.values|
            && (b.used <= b.limit ==> a.budget.used <= b.limit)
  {
    if matches != [] && b.used < b.limit {
      AmountsFair(matches[1..], if matches[0].None? then b else Reserve(b, 1, frameId), frameId);
    }
  }

  lemma PrintFair(c: Charged, line: ManagementLine, frameId: nat)
    ensures Fair(c, PrintLine(c, line, frameId))
  {
    AmountsFair(line.amounts, Reserve(c.budget, 1, frameId), frameId);
  }

  lemma InterpretFair(c: Charged, amounts: seq<int>, line: ManagementLine, seenTotal: bool, frameId: nat)
    ensures Fair(c, InterpretLine(c, amounts, line, seenTotal, frameId))
  {
  }

  lemma ManagementFair(c: Charged, line: ManagementLine, seenTotal: bool, frameId: nat)
    ensures Fair(c, ChargeManagementLine(c, line, seenTotal, frameId))
  {
    hide PrintLine, InterpretLine;
    PrintFair(c, line, frameId);
    InterpretFair(PrintLine(c, line, frameId), LineAmounts(c, line, frameId), line, seenTotal, frameId);
  }

  lemma SaleFair(c: Charged, i: Command, cents: int, text: string, frameId: nat)
    ensures i.Item? ==> Fair(c, ChargeItem(c, i, frameId))
    ensures Fair(c, ChargeTotal(c, cents, frameId)) && Fair(c, ChargeText(c, text, frameId))
  {
  }

  // ---------------------------------------------------------------- frames and lifecycle

  predicate Rising(frames: seq<Frame>) {
    frames != [] && forall i, k | 0 <= i < k < |frames| :: frames[i].frameId < frames[k].frameId
  }

  predicate Owns(frames: seq<Frame>, id: nat) {
    exists i :: 0 <= i < |frames| && frames[i].frameId == id
  }

  predicate Apart(a: seq<Frame>, b: seq<Frame>) {
    forall i, k | 0 <= i < |a| && 0 <= k < |b| :: a[i].frameId != b[k].frameId
  }

  /** The lifecycle edges that the commands of a document can take. */
  predicate Edge(source: State, target: State) {
    match source
    case Idle => target.CommercialBody? || target.ManagementBody?
    case CommercialBody => target.CommercialPayment? || target.Complete? || target.Incomplete?
    case CommercialPayment => target.CommercialPostlude? || target.Complete? || target.Incomplete?
    case CommercialPostlude => target.CommercialPayment? || target.Complete? || target.Incomplete?
    case ManagementBody => target.Complete? || target.Incomplete?
    case Complete => false
    case Incomplete => false
  }

  /** A connected path of allowed edges from idle to the given state. */
  predicate PathTo(transitions: seq<Transition>, state: State) {
    if transitions == [] then state == Idle
    else
      var last := transitions[|transitions| - 1];
      last.target == state && Edge(last.source, state) && PathTo(transitions[..|transitions| - 1], last.source)
  }

  predicate BuilderOk(b: Builder) {
    && Rising(b.frames)
    && PathTo(b.transitions, b.state)
    && (if b.kind.Commercial? then b.state.CommercialBody? || b.state.CommercialPayment? || b.state.CommercialPostlude?
        else b.state.ManagementBody?)
    && (forall i | 0 <= i < |b.issues| :: !b.issues[i].code.IncompleteDocument?)
  }

  /** A document ended in complete exactly if its last frame closed it, and says so if it did not. */
  predicate DocumentOk(d: Document) {
    && Rising(d.frames)
    && d.state == (if d.complete then Complete else Incomplete)
    && PathTo(d.transitions, d.state)
    && (d.complete ==> Closes(d.kind, LastFrame(d.frames).command))
    && d.numberSource.None? && d.documentNumber.None?
    && (d.complete <==> forall i | 0 <= i < |d.issues| :: !d.issues[i].code.IncompleteDocument?)
  }

  /** Ownership after all frames up to id last were scanned. */
  predicate Ownership(a: Assembly, last: int) {
    && (forall i | 0 <= i < |a.documents| :: a.documents[i].frames != [] && LastFrame(a.documents[i].frames).frameId <= last)
    && (forall i, k | 0 <= i < k < |a.documents| ::
          && LastFrame(a.documents[i].frames).frameId < LastFrame(a.documents[k].frames).frameId
          && Apart(a.documents[i].frames, a.documents[k].frames))
    && (a.active.Some? ==>
          && a.active.value.frames != [] && LastFrame(a.active.value.frames).frameId <= last
          && forall i | 0 <= i < |a.documents| ::
               && LastFrame(a.documents[i].frames).frameId < LastFrame(a.active.value.frames).frameId
               && Apart(a.documents[i].frames, a.active.value.frames))
    && (a.pendingStart.Some? ==>
          && a.pendingStart.value.frameId <= last
          && (forall i | 0 <= i < |a.documents| :: !Owns(a.documents[i].frames, a.pendingStart.value.frameId))
          && (a.active.Some? ==> !Owns(a.active.value.frames, a.pendingStart.value.frameId)))
  }

  predicate Sound(a: Assembly) {
    && (forall i | 0 <= i < |a.documents| :: DocumentOk(a.documents[i]) && a.documents[i].number == i + 1)
    && (a.active.Some? ==> BuilderOk(a.active.value))
  }

  predicate Inv(a: Assembly, last: int) {
    Conserved(a) && Ownership(a, last) && Sound(a)
  }

  // ---------------------------------------------------------------- the primitive moves

  lemma PathAppend(transitions: seq<Transition>, state: State, next: State, frameId: nat)
    requires PathTo(transitions, state) && Edge(state, next)
    ensures PathTo(transitions + [Transition(state, next, frameId)], next)
  {
    assert (transitions + [Transition(state, next, frameId)])[..|transitions|] == transitions;
  }

  lemma NewBuilderOk(kind: Kind, f: Frame)
    ensures BuilderOk(NewBuilder(kind, f)) && NewBuilder(kind, f).frames == [f] && NewBuilder(kind, f).fields == NO_FIELDS
    ensures NewBuilder(kind, f).kind == kind
  {
    PathAppend([], Idle, if kind.Commercial? then CommercialBody else ManagementBody, f.frameId);
  }

  lemma AddFrameOk(b: Builder, f: Frame)
    requires BuilderOk(b) && LastFrame(b.frames).frameId <= f.frameId
    ensures BuilderOk(AddFrame(b, f))
    ensures LastFrame(AddFrame(b, f).frames).frameId == f.frameId
  {
  }

  lemma FinishBuilderOk(b: Builder, number: nat, complete: bool)
    requires BuilderOk(b) && (complete ==> Closes(b.kind, LastFrame(b.frames).command))
    ensures DocumentOk(FinishBuilder(b, number, complete))
  {
    hide Closes;
    var d := FinishBuilder(b, number, complete);
    PathAppend(b.transitions, b.state, d.state, LastFrame(b.frames).frameId);
    if !complete {
      assert d.issues[|b.issues|].code.IncompleteDocument?;
    }
  }

  lemma FinishKeeps(a: Assembly, complete: bool, max: nat, last: int)
    requires Inv(a, last)
    requires complete && a.active.Some? ==> Closes(a.active.value.kind, LastFrame(a.active.value.frames).command)
    ensures Inv(FinishActive(a, complete, max), last) && FinishActive(a, complete, max).active.None?
  {
    if a.active.Some? {
      FinishConserves(a, complete, max);
      FinishPlaces(a, complete, max, last);
      FinishSound(a, complete, max);
    }
  }

  lemma FinishCopies(b: Builder, number: nat, complete: bool)
    requires b.frames != []
    ensures var d := FinishBuilder(b, number, complete);
            d.number == number && d.fields == b.fields && d.frames == b.frames && d.kind == b.kind && d.complete == complete
  {
  }

  lemma SumsAppend(documents: seq<Document>, d: Document, builders: seq<Builder>, b: Builder)
    ensures DocumentFields(documents + [d]) == DocumentFields(documents) + d.fields.Count()
    ensures BuilderFields(builders + [b]) == BuilderFields(builders) + b.fields.Count()
  {
    assert (documents + [d])[..|documents|] == documents && (builders + [b])[..|builders|] == builders;
  }

  lemma FinishConserves(a: Assembly, complete: bool, max: nat)
    requires Conserved(a) && a.active.Some? && HasFrames(a)
    ensures Conserved(FinishActive(a, complete, max))
  {
    hide FinishBuilder, DocumentFields, BuilderFields, Fields.Count;
    var b := a.active.value;
    var d := FinishBuilder(b, |a.documents| + 1, complete);
    FinishCopies(b, |a.documents| + 1, complete);
    SumsAppend(a.documents, d, a.omitted, b);
  }

  lemma FinishPlaces(a: Assembly, complete: bool, max: nat, last: int)
    requires Ownership(a, last) && HasFrames(a)
    ensures Ownership(FinishActive(a, complete, max), last)
  {
    hide Apart, Owns, FinishBuilder;
    if a.active.Some? {
      FinishCopies(a.active.value, |a.documents| + 1, complete);
    }
  }

  lemma FinishSound(a: Assembly, complete: bool, max: nat)
    requires Sound(a) && a.active.Some?
    requires complete ==> Closes(a.active.value.kind, LastFrame(a.active.value.frames).command)
    ensures Sound(FinishActive(a, complete, max))
  {
    hide DocumentOk, FinishBuilder, Closes;
    FinishBuilderOk(a.active.value, |a.documents| + 1, complete);
    FinishCopies(a.active.value, |a.documents| + 1, complete);
  }

  /** Opening on a frame that no document owns and that is later than all of their last frames. */
  lemma OpenKeeps(a: Assembly, kind: Kind, f: Frame, last: int)
    requires Inv(a, last) && a.active.None? && last < f.frameId
    ensures Inv(Open(a, kind, f), f.frameId)
  {
    hide PathTo, DocumentOk, BuilderOk;
    NewBuilderOk(kind, f);
    NewerIsApart(a, f, last);
  }

  lemma NewerIsApart(a: Assembly, f: Frame, last: int)
    requires Inv(a, last) && last < f.frameId
    ensures forall i | 0 <= i < |a.documents| :: Apart(a.documents[i].frames, [f]) && !Owns(a.documents[i].frames, f.frameId)
    ensures a.active.Some? ==> Apart(a.active.value.frames, [f]) && !Owns(a.active.value.frames, f.frameId)
  {
    hide PathTo, Closes;
    forall i | 0 <= i < |a.documents| ensures Apart(a.documents[i].frames, [f]) && !Owns(a.documents[i].frames, f.frameId) {
      assert DocumentOk(a.documents[i]);
      BelowLast(a.documents[i].frames);
    }
    if a.active.Some? {
      BelowLast(a.active.value.frames);
    }
  }

  lemma BelowLast(frames: seq<Frame>)
    requires Rising(frames)
    ensures forall i | 0 <= i < |frames| :: frames[i].frameId <= LastFrame(frames).frameId
  {
  }

  lemma ApartExtend(a: seq<Frame>, b: seq<Frame>, f: Frame)
    requires Apart(a, b) && Apart(a, [f])
    ensures Apart(a, b + [f])
  {
    forall i, k | 0 <= i < |a| && 0 <= k < |b + [f]| ensures a[i].frameId != (b + [f])[k].frameId {
      if k == |b| {
        assert [f][0] == f;
      }
    }
  }

  lemma OwnsExtend(b: seq<Frame>, f: Frame, id: nat)
    requires !Owns(b, id) && f.frameId != id
    ensures !Owns(b + [f], id)
  {
  }

  /** The active builder takes a frame newer than everything scanned. */
  lemma OwnKeeps(a: Assembly, f: Frame, last: int)
    requires Inv(a, last) && a.active.Some? && last < f.frameId
    ensures Inv(Own(a, f), f.frameId)
    ensures Own(a, f).active.value.frames == a.active.value.frames + [f]
  {
    hide PathTo, DocumentOk, BuilderOk, Apart, Owns;
    var b := a.active.value;
    assert BuilderOk(b);
    NewerIsApart(a, f, last);
    AddFrameOk(b, f);
    forall i | 0 <= i < |a.documents| ensures Apart(a.documents[i].frames, b.frames + [f]) {
      ApartExtend(a.documents[i].frames, b.frames, f);
    }
    if a.pendingStart.Some? {
      OwnsExtend(b.frames, f, a.pendingStart.value.frameId);
    }
  }

  /** A counter query seen before the document may become its first frame although other documents came between. */
  lemma OpenPendingKeeps(a: Assembly, p: Frame, f: Frame, last: int)
    requires Inv(a, last) && a.active.None? && last < f.frameId && a.pendingStart == Some(p)
    ensures Inv(Own(Open(a, Commercial, p), f).(pendingStart := None), f.frameId)
  {
    hide PathTo, DocumentOk, BuilderOk, Apart, Owns, NewBuilder, AddFrame;
    NewBuilderOk(Commercial, p);
    NewerIsApart(a, f, last);
    var b := NewBuilder(Commercial, p);
    assert b.frames == [p] && LastFrame(b.frames) == p;
    AddFrameOk(b, f);
    AddedFrames(b, f);
    forall i | 0 <= i < |a.documents| ensures Apart(a.documents[i].frames, [p] + [f]) {
      NotOwnedIsApart(a.documents[i].frames, p);
      ApartExtend(a.documents[i].frames, [p], f);
    }
  }

  lemma AddedFrames(b: Builder, f: Frame)
    requires b.frames != [] && LastFrame(b.frames).frameId != f.frameId
    ensures AddFrame(b, f).frames == b.frames + [f] && AddFrame(b, f).fields == b.fields
  {
  }

  lemma NotOwnedIsApart(frames: seq<Frame>, p: Frame)
    requires !Owns(frames, p.frameId)
    ensures Apart(frames, [p])
  {
  }

  lemma LaterKeeps(a: Assembly, last: int, later: int)
    requires Inv(a, last) && last <= later
    ensures Inv(a, later)
  {
    hide Apart, Owns, DocumentOk, BuilderOk, Conserved;
  }

  /** The active builder changes without touching frames or fields. */
  lemma RefinedKeeps(a: Assembly, b: Builder, last: int)
    requires Inv(a, last) && a.active.Some? && BuilderOk(b)
    requires b.frames == a.active.value.frames && b.fields == a.active.value.fields
    ensures Inv(a.(active := Some(b)), last)
  {
    hide Apart, Owns, DocumentOk, BuilderOk;
  }

  lemma PendingKeeps(a: Assembly, p: Option<Frame>, last: int)
    requires Inv(a, last)
    requires p.Some? ==> p.value.frameId > last
    ensures Inv(a.(pendingStart := p), if p.Some? then p.value.frameId else last)
  {
    hide DocumentOk, BuilderOk, Apart;
    if p.Some? {
      LaterKeeps(a, last, p.value.frameId);
      NewerIsApart(a, p.value, last);
    }
  }

  lemma MoveKeeps(a: Assembly, target: State, f: Frame, last: int)
    requires Inv(a, last) && Active(a, Commercial) && (target.CommercialPayment? || target.CommercialPostlude?)
    requires a.active.value.state == target || Edge(a.active.value.state, target)
    ensures Inv(a.(active := Some(MoveTo(a.active.value, target, f))), last)
  {
    hide Ownership, Conserved, DocumentOk;
    var b := a.active.value;
    if b.state != target {
      PathAppend(b.transitions, b.state, target, f.frameId);
    }
    RefinedKeeps(a, MoveTo(b, target, f), last);
  }

  lemma ReportKeeps(a: Assembly, code: IssueCode, f: Frame, last: int)
    requires Inv(a, last) && a.active.Some? && !code.IncompleteDocument?
    ensures Inv(Report(a, code, f), last)
  {
    hide Ownership, Conserved, DocumentOk, PathTo;
    var b := a.active.value;
    RefinedKeeps(a, b.(issues := b.issues + [Issue(code, f.frameId)]), last);
  }

  lemma ChargeKeeps(a: Assembly, c: Charged, last: int)
    requires Inv(a, last) && a.active.Some? && Fair(Account(a), c)
    ensures Inv(Charge(a, c), last)
  {
    hide Apart, Owns, DocumentOk, PathTo;
  }

  // ---------------------------------------------------------------- every command

  lemma InvHasFrames(a: Assembly, last: int)
    requires Inv(a, last)
    ensures HasFrames(a)
  {
  }

  lemma ControlKeeps(a: Assembly, f: Frame, max: nat, last: int)
    requires Inv(a, last) && last < f.frameId && f.command.Control?
    ensures Inv(OnControl(a, f, max), f.frameId)
  {
    hide Inv, Own, FinishActive;
    InvHasFrames(a, last);
    if Active(a, Commercial) {
      OwnKeeps(a, f, last);
      var o := Own(a, f);
      OwnFrame(a, f);
      if Closes(Commercial, f.command) {
        FinishKeeps(o, true, max, f.frameId);
      } else if o.active.value.state.CommercialPayment? {
        MoveKeeps(o, CommercialPostlude, f, f.frameId);
      }
    } else {
      PendingKeeps(a, if f.command.kind.CounterQuery? then Some(f) else None, last);
      LaterKeeps(a.(pendingStart := None), last, f.frameId) by {
        PendingKeeps(a, None, last);
      }
    }
  }

  lemma OwnFrame(a: Assembly, f: Frame)
    requires a.active.Some?
    ensures var o := Own(a, f);
            && o.active.Some? && o.active.value.kind == a.active.value.kind && o.active.value.state == a.active.value.state
            && o.pendingStart == a.pendingStart
  {
  }

  lemma StartKeeps(a: Assembly, f: Frame, max: nat, last: int)
    requires Inv(a, last) && last < f.frameId
    ensures Inv(OnStart(a, f, max), f.frameId)
  {
    hide Inv, FinishActive;
    InvHasFrames(a, last);
    var done := FinishActive(a, false, max);
    FinishKeeps(a, false, max, last);
    FinishPending(a, false, max);
    if a.pendingStart.Some? {
      OpenPendingKeeps(done, a.pendingStart.value, f, last);
    } else {
      OpenKeeps(done, Commercial, f, last);
      SameFrame(NewBuilder(Commercial, f), f);
      PendingKeeps(Open(done, Commercial, f), None, f.frameId);
    }
  }

  lemma FinishPending(a: Assembly, complete: bool, max: nat)
    requires HasFrames(a)
    ensures FinishActive(a, complete, max).pendingStart == a.pendingStart
  {
  }

  lemma SameFrame(b: Builder, f: Frame)
    requires b.frames == [f]
    ensures AddFrame(b, f) == b
  {
  }

  lemma BoundaryKeeps(a: Assembly, f: Frame, max: nat, last: int)
    requires Inv(a, last) && last < f.frameId && f.command.Boundary?
    ensures Inv(OnBoundary(a, f, max), f.frameId)
  {
    hide Inv, FinishActive, Own;
    InvHasFrames(a, last);
    if Active(a, Managerial) {
      OwnKeeps(a, f, last);
      OwnFrame(a, f);
      FinishKeeps(Own(a, f), true, max, f.frameId);
      PendingKeeps(FinishActive(Own(a, f), true, max), None, f.frameId);
    } else {
      FinishKeeps(a, false, max, last);
      OpenKeeps(FinishActive(a, false, max), Managerial, f, last);
      PendingKeeps(Open(FinishActive(a, false, max), Managerial, f), None, f.frameId);
    }
  }

  /** A new builder already has the frame that opened it. */
  lemma OwnOpened(a: Assembly, kind: Kind, f: Frame, code: Option<IssueCode>)
    ensures var o := Open(a, kind, f);
            var r := if code.Some? then Report(o, code.value, f) else o;
            Own(r, f) == r && Active(r, kind)
  {
  }

  /** The builder of the right kind owns the frame, whether it was active or had to be opened. */
  lemma ForSaleKeeps(a: Assembly, f: Frame, max: nat, last: int)
    requires Inv(a, last) && last < f.frameId
    ensures Inv(ForSale(a, f, max), f.frameId) && Active(ForSale(a, f, max), Commercial)
  {
    hide Inv, FinishActive, Own, Open, Report;
    InvHasFrames(a, last);
    if Active(a, Commercial) {
      OwnKeeps(a, f, last);
    } else {
      var done := FinishActive(a, false, max);
      FinishKeeps(a, false, max, last);
      OpenKeeps(done, Commercial, f, last);
      OwnOpened(done, Commercial, f, None);
      OwnOpened(done, Commercial, f, Some(MissingCommercialStart));
      ReportKeeps(Open(done, Commercial, f), MissingCommercialStart, f, f.frameId);
    }
  }

  lemma ItemKeeps(a: Assembly, f: Frame, max: nat, last: int)
    requires Inv(a, last) && last < f.frameId && f.command.Item?
    ensures Inv(OnItem(a, f, max), f.frameId)
  {
    hide Inv, ForSale, ChargeItem, Fair;
    InvHasFrames(a, last);
    ForSaleKeeps(a, f, max, last);
    var o := ForSale(a, f, max);
    SaleFair(Account(o), f.command, 0, "", f.frameId);
    ChargeKeeps(o, ChargeItem(Account(o), f.command, f.frameId), f.frameId);
  }

  lemma TotalKeeps(a: Assembly, f: Frame, max: nat, last: int)
    requires Inv(a, last) && last < f.frameId && f.command.Total?
    ensures Inv(OnTotal(a, f, max), f.frameId)
  {
    hide Inv, ForSale, ChargeTotal, Fair;
    InvHasFrames(a, last);
    ForSaleKeeps(a, f, max, last);
    var o := ForSale(a, f, max);
    SaleFair(Account(o), f.command, f.command.cents, "", f.frameId);
    var c := Charge(o, ChargeTotal(Account(o), f.command.cents, f.frameId));
    ChargeKeeps(o, ChargeTotal(Account(o), f.command.cents, f.frameId), f.frameId);
    CommercialStates(c, f.frameId);
    MoveKeeps(c, CommercialPayment, f, f.frameId);
  }

  lemma CommercialStates(a: Assembly, last: int)
    requires Inv(a, last) && Active(a, Commercial)
    ensures a.active.value.state.CommercialPayment? || Edge(a.active.value.state, CommercialPayment)
  {
    hide Ownership, Conserved, PathTo, DocumentOk;
  }

  lemma OtherKeeps(a: Assembly, f: Frame, last: int)
    requires Inv(a, last) && last < f.frameId
    ensures Inv(OnOther(a, f), f.frameId)
  {
    hide Inv, Own;
    InvHasFrames(a, last);
    LaterKeeps(a, last, f.frameId);
    if a.active.Some? {
      OwnKeeps(a, f, last);
    }
  }

  lemma TextKeeps(a: Assembly, f: Frame, last: int)
    requires Inv(a, last) && last < f.frameId && f.command.Text?
    ensures Inv(OnText(a, f), f.frameId)
  {
    hide Inv, Own, ChargeText, Fair;
    InvHasFrames(a, last);
    if Active(a, Commercial) {
      OwnKeeps(a, f, last);
      var o := Own(a, f);
      OwnFrame(a, f);
      SaleFair(Account(o), f.command, 0, f.command.text, f.frameId);
      ChargeKeeps(o, ChargeText(Account(o), f.command.text, f.frameId), f.frameId);
    } else {
      OtherKeeps(a, f, last);
    }
  }

  /** The management builder that takes a printed line. */
  function ForLine(a: Assembly, f: Frame, max: nat): Assembly
    requires HasFrames(a)
  {
    if a.active.None? then Report(Open(a, Managerial, f), MissingOpenBoundary, f)
    else if !Active(a, Managerial) then Open(FinishActive(a, false, max), Managerial, f)
    else a
  }

  lemma ForLineKeeps(a: Assembly, f: Frame, max: nat, last: int)
    requires Inv(a, last) && last < f.frameId
    ensures var o := ForLine(a, f, max); o.active.Some? && Inv(Own(o, f), f.frameId)
  {
    hide Inv, FinishActive, Own, Open, Report;
    InvHasFrames(a, last);
    if a.active.None? {
      OpenKeeps(a, Managerial, f, last);
      OwnOpened(a, Managerial, f, None);
      OwnOpened(a, Managerial, f, Some(MissingOpenBoundary));
      ReportKeeps(Open(a, Managerial, f), MissingOpenBoundary, f, f.frameId);
    } else if !Active(a, Managerial) {
      FinishKeeps(a, false, max, last);
      OpenKeeps(FinishActive(a, false, max), Managerial, f, last);
      OwnOpened(FinishActive(a, false, max), Managerial, f, None);
    } else {
      OwnKeeps(a, f, last);
    }
  }

  lemma SeenTotalKeeps(a: Assembly, seen: bool, last: int)
    requires Inv(a, last) && a.active.Some?
    ensures Inv(a.(active := Some(a.active.value.(seenPrimaryTotal := seen))), last)
  {
    hide Ownership, Conserved, DocumentOk, PathTo;
    RefinedKeeps(a, a.active.value.(seenPrimaryTotal := seen), last);
  }

  lemma ManagementKeeps(a: Assembly, f: Frame, max: nat, last: int)
    requires Inv(a, last) && last < f.frameId && f.command.Management?
    ensures Inv(OnManagement(a, f, max), f.frameId)
  {
    hide Inv, FinishActive, Own, Open, Report, ChargeManagementLine, ShowsTotal, Fair;
    InvHasFrames(a, last);
    ForLineKeeps(a, f, max, last);
    var p := Own(ForLine(a, f, max), f);
    OwnFrame(ForLine(a, f, max), f);
    var b := p.active.value;
    var seen := b.seenPrimaryTotal || ShowsTotal(Account(p), f.command.line, f.frameId);
    SeenTotalKeeps(p, seen, f.frameId);
    ManagementFair(Account(p), f.command.line, b.seenPrimaryTotal, f.frameId);
    ChargeKeeps(p.(active := Some(b.(seenPrimaryTotal := seen))),
                ChargeManagementLine(Account(p), f.command.line, b.seenPrimaryTotal, f.frameId), f.frameId);
  }

  lemma ProcessKeeps(a: Assembly, f: Frame, max: nat, last: int)
    requires Inv(a, last) && last < f.frameId
    ensures Inv(Process(a, f, max), f.frameId)
  {
    hide Inv, OnControl, OnStart, OnBoundary, OnManagement, OnItem, OnText, OnTotal, OnOther;
    InvHasFrames(a, last);
    LaterKeeps(a, last, f.frameId);
    if IsRequestProfile(f) {
      match f.command
      case Control(_) => ControlKeeps(a, f, max, last);
      case Start => StartKeeps(a, f, max, last);
      case Boundary => BoundaryKeeps(a, f, max, last);
      case Management(_) => ManagementKeeps(a, f, max, last);
      case Item(_, _, _, _) => ItemKeeps(a, f, max, last);
      case Text(_) => TextKeeps(a, f, last);
      case Total(_, _, _) => TotalKeeps(a, f, max, last);
      case Display =>
      case Unclassified => OtherKeeps(a, f, last);
    }
  }

  // ---------------------------------------------------------------- whole streams

  predicate IdsRise(frames: seq<Frame>) {
    forall i, k | 0 <= i < k < |frames| :: frames[i].frameId < frames[k].frameId
  }

  function LastId(frames: seq<Frame>): int {
    if frames == [] then -1 else frames[|frames| - 1].frameId
  }

  lemma {:induction false} ScanKeeps(frames: seq<Frame>, max: nat, limit: nat)
    requires IdsRise(frames)
    ensures Inv(Scan(frames, max, limit), LastId(frames))
  {
    hide Inv, Process;
    if frames == [] {
      assert Inv(NewAssembly(limit), -1) by { NewAssemblyInv(limit); }
    } else {
      var n := |frames| - 1;
      ScanKeeps(frames[..n], max, limit);
      ProcessKeeps(Scan(frames[..n], max, limit), frames[n], max, LastId(frames[..n]));
    }
  }

  lemma NewAssemblyInv(limit: nat)
    ensures Inv(NewAssembly(limit), -1)
  {
  }

  lemma AssembleKeeps(frames: seq<Frame>, max: nat, limit: nat)
    requires IdsRise(frames)
    ensures Inv(Assemble(frames, max, limit), LastId(frames)) && Assemble(frames, max, limit).active.None?
  {
    hide Inv, Scan, FinishActive;
    ScanKeeps(frames, max, limit);
    FinishKeeps(Scan(frames, max, limit), false, max, LastId(frames));
  }
}
