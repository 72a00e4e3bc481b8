/** The receipt parser's mutable objects and loops, proved against the value-level specification. */
module ReceiptAssemblers {
  import opened Options
  import opened PrintedAmounts
  import opened ReceiptModel
  import opened ReceiptCorrelation

  class SemanticBudget {
    const limit: nat
    var used: nat
    var issue: Option<nat>

    ghost function View(): Budget
      reads this
    {
      Budget(limit, used, issue)
    }

    constructor (limit: nat)
      ensures View() == Budget(limit, 0, None)
    {
      this.limit, used, issue := limit, 0, None;
    }

    method Reserve(count: nat, frameId: nat) returns (granted: bool)
      modifies this
      ensures granted == old(Grants(View(), count))
      ensures View() == old(ReceiptModel.Reserve(View(), count, frameId))
    {
      if used + count <= limit {
        used := used + count;
        return true;
      }
      if issue.None? {
        issue := Some(frameId);
      }
      return false;
    }

    /** Reads the printed amounts of a line until the budget is used up. */
    method TakeAmounts(matches: seq<Option<int>>, frameId: nat) returns (values: seq<int>)
      modifies this
      ensures Amounts(values, View()) == old(AmountFields(matches, View(), frameId))
    {
      values := [];
      ghost var b := View();
      for i := 0 to |matches|
        invariant var rest := AmountFields(matches[i..], View(), frameId);
                  AmountFields(matches, b, frameId) == Amounts(values + rest.values, rest.budget)
      {
        assert matches[i..][1..] == matches[i + 1..];
        if used >= limit {
          var refused := Reserve(1, frameId);
          return;
        }
        if matches[i].Some? {
          var granted := Reserve(1, frameId);
          values := values + [matches[i].value];
        }
      }
    }
  }

  class DocumentAssembler {
    const maxDocuments: nat
    const budget: SemanticBudget
    var documents: seq<Document>
    var issues: seq<Issue>
    var active: Option<Builder>
    var pendingStart: Option<Frame>
    var documentLimitReported: bool
    ghost var omitted: seq<Builder>

    ghost function View(): Assembly
      reads this, budget
    {
      Assembly(documents, issues, active, pendingStart, documentLimitReported, omitted, budget.View())
    }

    ghost predicate Valid()
      reads this, budget
    {
      HasFrames(View())
    }

    constructor (maxDocuments: nat, limit: nat)
      ensures Valid() && View() == NewAssembly(limit) && this.maxDocuments == maxDocuments
      ensures fresh(budget)
    {
      this.maxDocuments := maxDocuments;
      budget := new SemanticBudget(limit);
      documents, issues, active, pendingStart, documentLimitReported, omitted := [], [], None, None, false, [];
    }

    method FinishActive(complete: bool)
      requires Valid()
      modifies this
      ensures Valid() && View() == old(ReceiptModel.FinishActive(View(), complete, maxDocuments))
    {
      if active.None? {
        return;
      }
      if |documents| < maxDocuments {
        var document := FinishBuilder(active.value, |documents| + 1, complete);
        documents := documents + [document];
        issues := issues + document.issues;
      } else {
        omitted := omitted + [active.value];
        if !documentLimitReported {
          documentLimitReported := true;
          issues := issues + [Issue(DocumentLimitExceeded, active.value.startFrame.frameId)];
        }
      }
      active := None;
    }

    method ApplyManagementLine(f: Frame, line: ManagementLine)
      requires Valid() && active.Some?
      modifies this`active, budget
      ensures Valid()
      ensures View() == old(var b := active.value;
                            Charge(View().(active := Some(b.(seenPrimaryTotal := b.seenPrimaryTotal || ShowsTotal(Account(View()), line, f.frameId)))),
                                   ChargeManagementLine(Account(View()), line, b.seenPrimaryTotal, f.frameId)))
    {
      ghost var c := Account(View());
      var fields := active.value.fields;
      var granted := budget.Reserve(1, f.frameId);
      if granted {
        fields := fields.(lines := fields.lines + [line.text]);
      }
      var amounts := budget.TakeAmounts(line.amounts, f.frameId);
      fields := fields.(amounts := fields.amounts + amounts);
      assert Charged(fields, budget.View()) == PrintLine(c, line, f.frameId) && amounts == LineAmounts(c, line, f.frameId);
      fields := InterpretManagementLine(fields, amounts, line, f.frameId);
      var seen := active.value.seenPrimaryTotal || (line.prefix.Tot? && amounts != []);
      active := Some(active.value.(fields := fields, seenPrimaryTotal := seen));
    }

    method InterpretManagementLine(fields: Fields, amounts: seq<int>, line: ManagementLine, frameId: nat) returns (r: Fields)
      requires active.Some?
      modifies budget
      ensures Charged(r, budget.View())
              == old(InterpretLine(Charged(fields, budget.View()), amounts, line, active.value.seenPrimaryTotal, frameId))
    {
      r := fields;
      var granted;
      if line.prefix.Resto? && amounts != [] {
        return;
      }
      if line.prefix.Contanti? && amounts != [] {
        granted := budget.Reserve(1, frameId);
        if granted {
          r := r.(payments := r.payments + [LastOf(amounts)]);
        }
        return;
      }
      if line.prefix.Tot? && amounts != [] {
        granted := budget.Reserve(1, frameId);
        if granted {
          r := r.(totals := r.totals + [TotalField(if |amounts| == 1 then Some(LastOf(amounts)) else None, amounts)]);
        }
        return;
      }
      if line.percent && |amounts| >= 2 {
        granted := budget.Reserve(1, frameId);
        if granted {
          r := r.(taxes := r.taxes + [Tax(amounts[|amounts| - 2], LastOf(amounts))]);
        }
        return;
      }
      if line.item.Some? && !active.value.seenPrimaryTotal {
        var i := line.item.value;
        granted := budget.Reserve(2, frameId);
        if granted {
          r := r.(items := r.items + [ItemField(i.description, i.cents, None)], descriptions := r.descriptions + [i.description]);
        }
      }
    }

    method ApplyCommercialItem(f: Frame)
      requires Valid() && active.Some? && f.command.Item?
      modifies this`active, budget
      ensures Valid() && View() == old(Charge(View(), ChargeItem(Account(View()), f.command, f.frameId)))
    {
      var i := f.command;
      var granted := budget.Reserve(if i.quantity.Some? then 5 else 4, f.frameId);
      if !granted {
        return;
      }
      var fields := active.value.fields;
      fields := fields.(items := fields.items + [ItemField(i.description, Some(i.cents), i.quantity)],
                        descriptions := fields.descriptions + [i.description],
                        amounts := fields.amounts + [i.cents]);
      if i.quantity.Some? {
        fields := fields.(quantities := fields.quantities + [i.quantity.value]);
      }
      assert i.quantity.None? ==> fields.quantities + [] == fields.quantities;
      fields := fields.(lines := fields.lines + [ItemLine(i.description, i.cents)]);
      active := Some(active.value.(fields := fields));
    }

    method ApplyCommercialTotal(f: Frame)
      requires Valid() && active.Some? && f.command.Total?
      modifies this`active, budget
      ensures Valid()
      ensures View() == old(var c := Charge(View(), ChargeTotal(Account(View()), f.command.cents, f.frameId));
                            c.(active := Some(MoveTo(c.active.value, CommercialPayment, f))))
    {
      var cents := f.command.cents;
      var granted := budget.Reserve(5, f.frameId);
      if granted {
        var fields := active.value.fields;
        fields := fields.(totals := fields.totals + [TotalField(Some(cents), [])],
                          payments := fields.payments + [cents],
                          amounts := fields.amounts + [cents],
                          lines := fields.lines + ["TOTALE " + FormatCents(cents), "IMPORTO PAGAMENTO " + FormatCents(cents)]);
        active := Some(active.value.(fields := fields));
      }
      active := Some(MoveTo(active.value, CommercialPayment, f));
    }

    method ApplyText(f: Frame)
      requires Valid() && active.Some? && f.command.Text?
      modifies this`active, budget
      ensures Valid() && View() == old(Charge(View(), ChargeText(Account(View()), f.command.text, f.frameId)))
    {
      var granted := budget.Reserve(1, f.frameId);
      if granted {
        var fields := active.value.fields;
        active := Some(active.value.(fields := fields.(lines := fields.lines + ["#" + f.command.text])));
      }
    }

    method AddFrame(f: Frame)
      requires Valid() && active.Some?
      modifies this`active
      ensures Valid() && active.Some? && View() == old(Own(View(), f))
    {
      active := Some(ReceiptModel.AddFrame(active.value, f));
    }

    method Complain(code: IssueCode, f: Frame)
      requires Valid() && active.Some?
      modifies this`active
      ensures Valid() && active.Some? && View() == old(Report(View(), code, f))
    {
      active := Some(active.value.(issues := active.value.issues + [Issue(code, f.frameId)]));
    }

    method ProcessControl(f: Frame)
      requires Valid() && f.command.Control?
      modifies this
      ensures Valid() && View() == old(OnControl(View(), f, maxDocuments))
    {
      hide FinishBuilder;
      if active.Some? && active.value.kind.Commercial? {
        AddFrame(f);
        if f.command.kind.Bare? || f.command.kind.Numbered? {
          FinishActive(true);
        } else if active.value.state.CommercialPayment? {
          active := Some(MoveTo(active.value, CommercialPostlude, f));
        }
      } else {
        pendingStart := if f.command.kind.CounterQuery? then Some(f) else None;
      }
    }

    method ProcessStart(f: Frame)
      requires Valid()
      modifies this
      ensures Valid() && View() == old(OnStart(View(), f, maxDocuments))
    {
      hide FinishBuilder;
      if active.Some? {
        FinishActive(false);
      }
      active := Some(NewBuilder(Commercial, if pendingStart.Some? then pendingStart.value else f));
      AddFrame(f);
      pendingStart := None;
    }

    method ProcessBoundary(f: Frame)
      requires Valid()
      modifies this
      ensures Valid() && View() == old(OnBoundary(View(), f, maxDocuments))
    {
      hide FinishBuilder;
      if active.Some? && active.value.kind.Managerial? {
        AddFrame(f);
        FinishActive(true);
      } else {
        if active.Some? {
          FinishActive(false);
        }
        active := Some(NewBuilder(Managerial, f));
      }
      pendingStart := None;
    }

    method ProcessManagement(f: Frame)
      requires Valid() && f.command.Management?
      modifies this, budget
      ensures Valid() && View() == old(OnManagement(View(), f, maxDocuments))
    {
      hide FinishBuilder, ChargeManagementLine, ShowsTotal;
      if active.None? {
        active := Some(NewBuilder(Managerial, f));
        Complain(MissingOpenBoundary, f);
      } else if !active.value.kind.Managerial? {
        FinishActive(false);
        active := Some(NewBuilder(Managerial, f));
      }
      AddFrame(f);
      ApplyManagementLine(f, f.command.line);
    }

    method OpenForSale(f: Frame)
      requires Valid()
      modifies this
      ensures Valid() && active.Some? && View() == old(ForSale(View(), f, maxDocuments))
    {
      hide FinishBuilder;
      if active.None? || !active.value.kind.Commercial? {
        if active.Some? {
          FinishActive(false);
        }
        active := Some(NewBuilder(Commercial, f));
        Complain(MissingCommercialStart, f);
      }
      AddFrame(f);
    }

    method Process(f: Frame)
      requires Valid()
      modifies this, budget
      ensures Valid() && View() == old(ReceiptModel.Process(View(), f, maxDocuments))
    {
      hide OnControl, OnStart, OnBoundary, OnManagement, ForSale, ChargeItem, ChargeTotal, ChargeText, MoveTo;
      if !IsRequestProfile(f) {
        return;
      }
      match f.command {
        case Control(_) => ProcessControl(f);
        case Start => ProcessStart(f);
        case Boundary => ProcessBoundary(f);
        case Management(_) => ProcessManagement(f);
        case Item(_, _, _, _) =>
          OpenForSale(f);
          ApplyCommercialItem(f);
        case Text(_) =>
          if active.Some? && active.value.kind.Commercial? {
            AddFrame(f);
            ApplyText(f);
          } else if active.Some? {
            AddFrame(f);
          }
        case Total(_, _, _) =>
          OpenForSale(f);
          ApplyCommercialTotal(f);
        case Display =>
        case Unclassified =>
          if active.Some? {
            AddFrame(f);
          }
      }
    }

    method ParseDocuments(frames: seq<Frame>)
      requires Valid() && View() == NewAssembly(budget.limit)
      modifies this, budget
      ensures View() == Assemble(frames, maxDocuments, budget.limit)
    {
      hide ReceiptModel.Process, ReceiptModel.FinishActive;
      for i := 0 to |frames|
        invariant Valid() && View() == Scan(frames[..i], maxDocuments, budget.limit)
      {
        assert frames[..i + 1][..i] == frames[..i];
        Process(frames[i]);
      }
      assert frames[..|frames|] == frames;
      FinishActive(false);
    }
  }

  /** The last answered counter query after a payment. */
  method FindCandidate(frames: seq<Frame>, correlations: seq<Correlation>, responses: seq<ResponseFrame>)
    returns (candidate: Option<ResponseFrame>)
    ensures candidate == Candidate(frames, correlations, responses)
  {
    hide Answer, IsQuery, IsPayment;
    candidate := None;
    var paymentSeen := false;
    for i := 0 to |frames|
      invariant candidate == Candidate(frames[..i], correlations, responses)
      invariant paymentSeen == PaymentSeen(frames[..i])
    {
      var f := frames[i];
      assert frames[..i + 1][..i] == frames[..i] && frames[..i + 1][i] == f;
      PaymentSeenNext(frames[..i], f);
      assert frames[..i + 1] == frames[..i] + [f];
      if IsPayment(f) {
        NotBoth(f);
        paymentSeen := true;
      } else if paymentSeen && IsQuery(f) {
        var answer := Answer(f, correlations, responses);
        if answer.Some? {
          candidate := answer;
        }
      }
    }
    assert frames[..|frames|] == frames;
  }

  lemma PaymentSeenNext(frames: seq<Frame>, f: Frame)
    ensures PaymentSeen(frames + [f]) <==> PaymentSeen(frames) || IsPayment(f)
  {
    hide IsPayment;
    var all := frames + [f];
    assert all[|frames|] == f;
    assert forall i | 0 <= i < |frames| :: all[i] == frames[i];
  }

  lemma NotBoth(f: Frame)
    requires IsPayment(f)
    ensures !IsQuery(f)
  {
  }

  method AttachResponseCounters(documents: seq<Document>, correlations: seq<Correlation>, responses: seq<ResponseFrame>, budget: SemanticBudget)
    returns (numbered: seq<Document>)
    modifies budget
    ensures AllAttached(numbered, budget.View()) == old(AttachAll(documents, correlations, responses, budget.View()))
  {
    hide Candidate;
    numbered := [];
    for i := 0 to |documents|
      invariant AllAttached(numbered, budget.View()) == old(AttachAll(documents[..i], correlations, responses, budget.View()))
    {
      assert documents[..i + 1][..i] == documents[..i];
      var d := documents[i];
      if d.kind.Commercial? && d.complete {
        var candidate := FindCandidate(d.frames, correlations, responses);
        if candidate.Some? {
          var response := candidate.value;
          var granted := budget.Reserve(COUNTER_FIELDS, response.frameId);
          if granted {
            var suffix := response.counter.value;
            d := d.(documentNumber := Some(suffix),
                    numberSource := Some(response.frameId),
                    footer := d.footer + ["", "DOCUMENTO N. (solo suffisso) " + suffix]);
          }
        }
      }
      numbered := numbered + [d];
    }
    assert documents[..|documents|] == documents;
  }
}
