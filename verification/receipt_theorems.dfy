/** What receipt assembly guarantees for every request stream with rising frame ids. */
module ReceiptTheorems {
  import opened Options
  import opened ReceiptModel
  import opened ReceiptInvariant
  import opened ReceiptCorrelation
  import opened ReceiptFrames

  /** Conservation: the budget never exceeds its limit and equals the number of derived records over all builders,
      including those the document limit dropped. */
  lemma BudgetConserved(frames: seq<Frame>, max: nat, limit: nat)
    requires IdsRise(frames)
    ensures var a := Assemble(frames, max, limit);
            a.budget.used <= limit && a.budget.used == DocumentFields(a.documents) + BuilderFields(a.omitted)
  {
    hide Assemble, Sound, Ownership;
    AssembleKeeps(frames, max, limit);
    LimitStays(frames, max, limit);
  }

  lemma {:induction false} ScanLimit(frames: seq<Frame>, max: nat, limit: nat)
    ensures Scan(frames, max, limit).budget.limit == limit
  {
    if frames != [] {
      hide HasFrames;
      ScanLimit(frames[..|frames| - 1], max, limit);
      ProcessLimit(Scan(frames[..|frames| - 1], max, limit), frames[|frames| - 1], max);
    }
  }

  lemma ProcessLimit(a: Assembly, f: Frame, max: nat)
    requires HasFrames(a)
    ensures Process(a, f, max).budget.limit == a.budget.limit
  {
    hide ChargeManagementLine, ChargeItem, ChargeTotal, ChargeText, ShowsTotal, FinishBuilder, NewBuilder, AddFrame, MoveTo;
    if IsRequestProfile(f) {
      match f.command
      case Management(line) =>
        var o := Own(ForLine(a, f, max), f);
        ManagementFair(Account(o), line, o.active.value.seenPrimaryTotal, f.frameId);
      case Item(_, _, _, _) =>
        SaleFair(Account(ForSale(a, f, max)), f.command, 0, "", f.frameId);
      case Total(cents, _, _) =>
        SaleFair(Account(ForSale(a, f, max)), f.command, cents, "", f.frameId);
      case Text(text) =>
        if Active(a, Commercial) {
          SaleFair(Account(Own(a, f)), f.command, 0, text, f.frameId);
        }
      case _ =>
    }
  }

  lemma LimitStays(frames: seq<Frame>, max: nat, limit: nat)
    ensures Assemble(frames, max, limit).budget.limit == limit
  {
    hide Scan;
    ScanLimit(frames, max, limit);
  }

  /** Inside a document the frame ids rise; no frame belongs to two documents; documents come in the order of their
      last frames. */
  lemma DocumentsOwnDisjointFrames(frames: seq<Frame>, max: nat, limit: nat)
    requires IdsRise(frames)
    ensures var ds := Assemble(frames, max, limit).documents;
            && (forall i | 0 <= i < |ds| :: Rising(ds[i].frames))
            && (forall i, k | 0 <= i < k < |ds| ::
                  Apart(ds[i].frames, ds[k].frames) && LastFrame(ds[i].frames).frameId < LastFrame(ds[k].frames).frameId)
  {
    hide Assemble, Conserved, Apart, Rising, PathTo, Closes;
    AssembleKeeps(frames, max, limit);
  }

  /** Every document's transition log is one connected path of allowed edges from idle to complete or incomplete; it
      is complete only if its last frame is its kind's closing command, and an incomplete one says so. */
  lemma LifecycleIsAPath(frames: seq<Frame>, max: nat, limit: nat, i: nat)
    requires IdsRise(frames) && i < |Assemble(frames, max, limit).documents|
    ensures var d := Assemble(frames, max, limit).documents[i];
            && d.number == i + 1 && d.frames != []
            && PathTo(d.transitions, if d.complete then Complete else Incomplete)
            && (d.complete ==> Closes(d.kind, LastFrame(d.frames).command))
            && (d.complete <==> forall k | 0 <= k < |d.issues| :: !d.issues[k].code.IncompleteDocument?)
  {
    hide Assemble, Conserved, Ownership, PathTo, Closes;
    AssembleKeeps(frames, max, limit);
  }

  function RequestFrame(id: nat, command: Command): Frame {
    Frame(id, 0, 0, true, "00", 'z', "1", command)
  }

  lemma ScanNext(frames: seq<Frame>, f: Frame, max: nat, limit: nat)
    ensures Scan(frames + [f], max, limit) == Process(Scan(frames, max, limit), f, max)
  {
    assert (frames + [f])[..|frames|] == frames;
  }

  lemma QueryIsRemembered(a: Assembly, id: nat, max: nat)
    requires a.active.None?
    ensures var f := RequestFrame(id, Control(CounterQuery)); Process(a, f, max) == a.(pendingStart := Some(f))
  {
  }

  lemma TotalOpens(a: Assembly, id: nat, max: nat)
    requires a.active.None?
    ensures var f := RequestFrame(id, Total(100, "1", true));
            var r := Process(a, f, max);
            && r.active.Some? && r.active.value.kind == Commercial && r.active.value.frames == [f]
            && r.documents == a.documents && r.pendingStart == a.pendingStart
  {
    hide ChargeTotal;
  }

  lemma ControlCloses(a: Assembly, id: nat, max: nat)
    requires Active(a, Commercial) && a.active.value.frames != [] && LastFrame(a.active.value.frames).frameId != id
    requires |a.documents| < max
    ensures var f := RequestFrame(id, Control(ControlKind.Numbered));
            var r := Process(a, f, max);
            && |r.documents| == |a.documents| + 1 && r.documents[..|a.documents|] == a.documents
            && r.documents[|a.documents|].frames == a.active.value.frames + [f]
            && r.active.None? && r.pendingStart == a.pendingStart
  {
    hide FinishBuilder;
    var f := RequestFrame(id, Control(ControlKind.Numbered));
    FinishCopies(Own(a, f).active.value, |a.documents| + 1, true);
  }

  lemma StartTakesQuery(a: Assembly, id: nat, max: nat)
    requires a.active.None? && a.pendingStart.Some? && a.pendingStart.value.frameId != id
    ensures var f := RequestFrame(id, Start);
            var r := Process(a, f, max);
            r.documents == a.documents && r.active.Some? && r.active.value.frames == [a.pendingStart.value, f]
  {
  }

  /** The frame ranges of two documents can interleave: a remembered counter query may precede frames of the
      document that was finished before its own. */
  lemma RangesCanInterleave() returns (frames: seq<Frame>, d: Document, e: Document)
    ensures IdsRise(frames) && Assemble(frames, 8, 64).documents == [d, e]
    ensures d.frames != [] && e.frames != []
    ensures e.frames[0].frameId < d.frames[0].frameId <= LastFrame(d.frames).frameId < LastFrame(e.frames).frameId
  {
    hide Process, FinishBuilder;
    var f1, f2, f3, f4 := RequestFrame(1, Control(CounterQuery)), RequestFrame(2, Total(100, "1", true)),
                          RequestFrame(3, Control(ControlKind.Numbered)), RequestFrame(4, Start);
    ScanNext([], f1, 8, 64);
    QueryIsRemembered(Scan([], 8, 64), 1, 8);
    ScanNext([] + [f1], f2, 8, 64);
    TotalOpens(Scan([] + [f1], 8, 64), 2, 8);
    ScanNext([] + [f1] + [f2], f3, 8, 64);
    ControlCloses(Scan([] + [f1] + [f2], 8, 64), 3, 8);
    ScanNext([] + [f1] + [f2] + [f3], f4, 8, 64);
    StartTakesQuery(Scan([] + [f1] + [f2] + [f3], 8, 64), 4, 8);
    frames := [] + [f1] + [f2] + [f3] + [f4];
    hide Scan;
    var last := Scan(frames, 8, 64);
    FinishCopies(last.active.value, |last.documents| + 1, false);
    var ds := Assemble(frames, 8, 64).documents;
    d, e := ds[0], ds[1];
  }

  /** No response frame's counter numbers two documents. */
  lemma CounterNumbersOneDocument(frames: seq<Frame>, responses: seq<ResponseFrame>, acks: seq<nat>, max: nat, limit: nat, i: nat, k: nat)
    requires IdsRise(frames) && ResponsesNumbered(responses)
    requires i < k < |Assemble(frames, max, limit).documents|
    ensures var a, cs := Assemble(frames, max, limit), Correlate(frames, responses, acks);
            var ds := AttachAll(a.documents, cs, responses, a.budget).documents;
            ds[i].numberSource.Some? && ds[k].numberSource.Some? ==> ds[i].numberSource != ds[k].numberSource
  {
    hide Assemble, AttachAll, Candidate, Answer, Correlate, Rising, PathTo, Closes;
    var a, cs := Assemble(frames, max, limit), Correlate(frames, responses, acks);
    AssembleKeeps(frames, max, limit);
    assert DocumentOk(a.documents[i]) && DocumentOk(a.documents[k]);
    AttachedAt(a.documents, cs, responses, a.budget, i);
    AttachedAt(a.documents, cs, responses, a.budget, k);
    var ds := AttachAll(a.documents, cs, responses, a.budget).documents;
    assert Apart(a.documents[i].frames, a.documents[k].frames);
    if ds[i].numberSource.Some? && ds[i].numberSource == ds[k].numberSource {
      var p, q := CandidateIsAnswer(a.documents[i].frames, cs, responses);
      var s, t := CandidateIsAnswer(a.documents[k].frames, cs, responses);
      AnswersDiffer(frames, responses, acks, a.documents[i].frames[q], a.documents[k].frames[t]);
    }
  }

  /** A numbered document is a complete commercial one whose number answers, at the same ordinal position and with
      the expected sequence, a counter query that it sent after its payment, and no later query of it was answered. */
  lemma NumberAnswersOwnQuery(frames: seq<Frame>, responses: seq<ResponseFrame>, acks: seq<nat>, max: nat, limit: nat, i: nat)
    returns (payment: nat, query: nat)
    requires IdsRise(frames) && i < |Assemble(frames, max, limit).documents|
    requires var a := Assemble(frames, max, limit);
             AttachAll(a.documents, Correlate(frames, responses, acks), responses, a.budget).documents[i].numberSource.Some?
    ensures var a, cs := Assemble(frames, max, limit), Correlate(frames, responses, acks);
            var d := AttachAll(a.documents, cs, responses, a.budget).documents[i];
            && d.kind.Commercial? && d.complete
            && Answered(d.frames, cs, responses, payment, query)
            && d.documentNumber == Answer(d.frames[query], cs, responses).value.counter
            && (forall j | query < j < |d.frames| && IsQuery(d.frames[j]) :: Answer(d.frames[j], cs, responses).None?)
  {
    hide Assemble, AttachAll, Candidate, Answer, Correlate, Rising, PathTo, Closes, IsQuery, IsPayment;
    var a, cs := Assemble(frames, max, limit), Correlate(frames, responses, acks);
    AssembleKeeps(frames, max, limit);
    assert DocumentOk(a.documents[i]);
    AttachedAt(a.documents, cs, responses, a.budget, i);
    payment, query := CandidateIsAnswer(a.documents[i].frames, cs, responses);
  }

  /** One of these document frames is a counter query after a payment, and the response at its place in the request
      stream replies to it. */
  predicate RepliedAt(frames: seq<Frame>, responses: seq<ResponseFrame>, own: seq<Frame>, payment: nat, query: nat, p: nat) {
    && payment < query < |own|
    && Sent(own[payment]) && own[payment].command.Total? && own[payment].command.wholePayload
    && Sent(own[query]) && own[query].command == Control(CounterQuery)
    && p < |frames| && frames[p] == own[query] && p < |responses| && Replies(frames[p], responses[p])
  }

  lemma AnsweredIsReplied(frames: seq<Frame>, responses: seq<ResponseFrame>, acks: seq<nat>, own: seq<Frame>, payment: nat, query: nat)
    requires IdsRise(frames) && ResponsesNumbered(responses) && forall f | f in own :: f in frames
    ensures Answered(own, Correlate(frames, responses, acks), responses, payment, query) <==>
            exists p :: RepliedAt(frames, responses, own, payment, query, p)
  {
    hide Answer, Replies, Correlate;
    var cs := Correlate(frames, responses, acks);
    if Answered(own, cs, responses, payment, query) {
      assert own[query] in frames;
      var p :| 0 <= p < |frames| && frames[p] == own[query];
      AnswerIsAtSamePosition(frames, responses, acks, p);
      assert RepliedAt(frames, responses, own, payment, query, p);
    }
    if p :| RepliedAt(frames, responses, own, payment, query, p) {
      AnswerIsAtSamePosition(frames, responses, acks, p);
    }
  }

  lemma DocumentFromStream(frames: seq<Frame>, max: nat, limit: nat, i: nat)
    requires IdsRise(frames) && i < |Assemble(frames, max, limit).documents|
    ensures forall f | f in Assemble(frames, max, limit).documents[i].frames :: f in frames
  {
    hide Assemble, Matters;
    NoCommandIsLost(frames, max, limit);
    var a := Assemble(frames, max, limit);
    forall f | f in a.documents[i].frames ensures f in frames {
      assert Has(a, f);
    }
  }

  /** When a receipt gets its number: exactly if it is complete and commercial, some counter query after one of its
      payments has a reply at its position in the stream, and four units of the budget are left at its turn. */
  lemma NumberedExactlyWhenReplied(frames: seq<Frame>, responses: seq<ResponseFrame>, acks: seq<nat>, max: nat, limit: nat, i: nat)
    requires IdsRise(frames) && ResponsesNumbered(responses) && i < |Assemble(frames, max, limit).documents|
    ensures var a := Assemble(frames, max, limit);
            var r := AttachAll(a.documents, Correlate(frames, responses, acks), responses, a.budget).documents;
            var d := a.documents[i];
            r[i].numberSource.Some? <==>
              && d.kind.Commercial? && d.complete
              && (exists payment, query, p :: RepliedAt(frames, responses, d.frames, payment, query, p))
              && a.budget.used + COUNTER_FIELDS * (NumberedCount(r[..i]) + 1) <= limit
  {
    hide Assemble, AttachAll, Answered, RepliedAt, Correlate, PathTo, Closes, Rising, Ownership, NumberedCount, DocumentFields, BuilderFields;
    var a, cs := Assemble(frames, max, limit), Correlate(frames, responses, acks);
    var d := a.documents[i];
    AssembleKeeps(frames, max, limit);
    LimitStays(frames, max, limit);
    assert forall k | 0 <= k < |a.documents| :: DocumentOk(a.documents[k]) ==> a.documents[k].numberSource.None?;
    NumberedExactly(a.documents, cs, responses, a.budget, i);
    DocumentFromStream(frames, max, limit, i);
    SomeReply(frames, responses, acks, d.frames);
  }

  lemma SomeReply(frames: seq<Frame>, responses: seq<ResponseFrame>, acks: seq<nat>, own: seq<Frame>)
    requires IdsRise(frames) && ResponsesNumbered(responses) && forall f | f in own :: f in frames
    ensures (exists payment, query :: Answered(own, Correlate(frames, responses, acks), responses, payment, query)) <==>
            (exists payment, query, p :: RepliedAt(frames, responses, own, payment, query, p))
  {
    hide Answered, RepliedAt, Correlate;
    var cs := Correlate(frames, responses, acks);
    if payment: nat, query: nat :| Answered(own, cs, responses, payment, query) {
      AnsweredIsReplied(frames, responses, acks, own, payment, query);
      var p :| RepliedAt(frames, responses, own, payment, query, p);
    }
    if payment: nat, query: nat, p: nat :| RepliedAt(frames, responses, own, payment, query, p) {
      AnsweredIsReplied(frames, responses, acks, own, payment, query);
    }
  }

  /** Over assembly and numbering together: the budget is the number of derived records plus four for every
      attached counter. */
  lemma CountersAreCharged(frames: seq<Frame>, responses: seq<ResponseFrame>, acks: seq<nat>, max: nat, limit: nat)
    requires IdsRise(frames)
    ensures var a := Assemble(frames, max, limit);
            var r := AttachAll(a.documents, Correlate(frames, responses, acks), responses, a.budget);
            && r.budget.used <= limit
            && r.budget.used == DocumentFields(a.documents) + BuilderFields(a.omitted)
                                + COUNTER_FIELDS * NumberedCount(r.documents)
  {
    hide Assemble, AttachAll, Candidate, Correlate, Ownership, PathTo, Closes, DocumentFields, BuilderFields, NumberedCount;
    var a := Assemble(frames, max, limit);
    BudgetConserved(frames, max, limit);
    LimitStays(frames, max, limit);
    AssembleKeeps(frames, max, limit);
    assert forall i | 0 <= i < |a.documents| :: DocumentOk(a.documents[i]) ==> a.documents[i].numberSource.None?;
    CountersCharge(a.documents, Correlate(frames, responses, acks), responses, a.budget);
  }
}
