/** How the derived records of a receipt agree with each other, whatever the budget refused: items with their
    descriptions, totals with payments, amounts with both. */
module ReceiptContents {
  import opened Options
  import opened ReceiptModel
  import opened ReceiptInvariant

  /** Items and descriptions go in pairs. In a commercial document each total is also a payment of the same amount,
      and the amounts are those of its items and totals. A managerial total has one amount of its own exactly if
      its line printed one. */
  predicate Agree(kind: Kind, f: Fields) {
    && |f.items| == |f.descriptions|
    && (forall i | 0 <= i < |f.items| :: f.items[i].description == f.descriptions[i])
    && (if kind.Commercial? then
          && f.taxes == []
          && |f.payments| == |f.totals|
          && (forall i | 0 <= i < |f.totals| :: f.totals[i].cents == Some(f.payments[i]))
          && (forall i | 0 <= i < |f.items| :: f.items[i].cents.Some?)
          && multiset(f.amounts) == multiset(Cents(f.items)) + multiset(f.payments)
        else
          && f.quantities == []
          && (forall i | 0 <= i < |f.items| :: f.items[i].quantity.None?)
          && forall i | 0 <= i < |f.totals| ::
               && f.totals[i].amounts != []
               && f.totals[i].cents == if |f.totals[i].amounts| == 1 then Some(f.totals[i].amounts[0]) else None)
  }

  /** The amounts of the items that have one. */
  function Cents(items: seq<ItemField>): seq<int> {
    if items == [] then []
    else
      var last := items[|items| - 1];
      Cents(items[..|items| - 1]) + if last.cents.Some? then [last.cents.value] else []
  }

  lemma CentsAppend(items: seq<ItemField>, i: ItemField)
    ensures Cents(items + [i]) == Cents(items) + if i.cents.Some? then [i.cents.value] else []
  {
    assert (items + [i])[..|items|] == items;
  }

  lemma ItemAgrees(c: Charged, i: Command, frameId: nat)
    requires i.Item? && Agree(Commercial, c.fields)
    ensures Agree(Commercial, ChargeItem(c, i, frameId).fields)
  {
    CentsAppend(c.fields.items, ItemField(i.description, Some(i.cents), i.quantity));
  }

  lemma TotalAgrees(c: Charged, cents: int, frameId: nat)
    requires Agree(Commercial, c.fields)
    ensures Agree(Commercial, ChargeTotal(c, cents, frameId).fields)
  {
  }

  lemma LineAgrees(c: Charged, line: ManagementLine, seenTotal: bool, frameId: nat)
    requires Agree(Managerial, c.fields)
    ensures Agree(Managerial, ChargeManagementLine(c, line, seenTotal, frameId).fields)
  {
    hide AmountFields;
  }

  predicate AllAgree(a: Assembly) {
    && (forall i | 0 <= i < |a.documents| :: Agree(a.documents[i].kind, a.documents[i].fields))
    && (a.active.Some? ==> Agree(a.active.value.kind, a.active.value.fields))
  }

  lemma FinishAgrees(a: Assembly, complete: bool, max: nat)
    requires AllAgree(a) && HasFrames(a)
    ensures AllAgree(FinishActive(a, complete, max))
  {
    hide Agree, FinishBuilder;
    if a.active.Some? {
      FinishCopies(a.active.value, |a.documents| + 1, complete);
    }
  }

  lemma OpenAgrees(a: Assembly, kind: Kind, f: Frame)
    requires AllAgree(a)
    ensures AllAgree(Open(a, kind, f)) && Active(Open(a, kind, f), kind)
  {
  }

  lemma OwnAgrees(a: Assembly, f: Frame)
    requires AllAgree(a) && a.active.Some?
    ensures AllAgree(Own(a, f)) && Own(a, f).active.value.kind == a.active.value.kind
    ensures Own(a, f).active.value.fields == a.active.value.fields
  {
    hide Agree;
  }

  lemma ChargeAgrees(a: Assembly, c: Charged)
    requires AllAgree(a) && a.active.Some? && Agree(a.active.value.kind, c.fields)
    ensures AllAgree(Charge(a, c))
  {
    hide Agree;
  }

  lemma ForSaleAgrees(a: Assembly, f: Frame, max: nat)
    requires AllAgree(a) && HasFrames(a)
    ensures AllAgree(ForSale(a, f, max))
  {
    hide Agree, FinishActive, Open, Own;
    if Active(a, Commercial) {
      OwnAgrees(a, f);
    } else {
      var done := FinishActive(a, false, max);
      FinishAgrees(a, false, max);
      OpenAgrees(done, Commercial, f);
      OwnAgrees(Report(Open(done, Commercial, f), MissingCommercialStart, f), f);
    }
  }

  lemma ForLineAgrees(a: Assembly, f: Frame, max: nat)
    requires AllAgree(a) && HasFrames(a)
    ensures var o := ForLine(a, f, max); Active(o, Managerial) && AllAgree(o)
  {
    hide Agree, FinishActive, Open;
    FinishAgrees(a, false, max);
    OpenAgrees(a, Managerial, f);
    OpenAgrees(FinishActive(a, false, max), Managerial, f);
  }

  lemma OwnHasFrames(a: Assembly, f: Frame)
    requires a.active.Some?
    ensures HasFrames(Own(a, f)) && Own(a, f).active.Some?
  {
  }

  lemma ManagementAgrees(a: Assembly, f: Frame, max: nat)
    requires AllAgree(a) && HasFrames(a) && f.command.Management?
    ensures AllAgree(OnManagement(a, f, max))
  {
    hide Agree, Own, FinishActive, Open, Report, ChargeManagementLine, ShowsTotal;
    ForLineAgrees(a, f, max);
    var o := ForLine(a, f, max);
    OwnAgrees(o, f);
    OwnHasFrames(o, f);
    var p := Own(o, f);
    LineAgrees(Account(p), f.command.line, p.active.value.seenPrimaryTotal, f.frameId);
  }

  lemma ControlAgrees(a: Assembly, f: Frame, max: nat)
    requires AllAgree(a) && HasFrames(a) && f.command.Control?
    ensures AllAgree(OnControl(a, f, max))
  {
    hide Agree, Own, FinishActive;
    if Active(a, Commercial) {
      OwnAgrees(a, f);
      OwnHasFrames(a, f);
      FinishAgrees(Own(a, f), true, max);
    }
  }

  lemma OpenersAgree(a: Assembly, f: Frame, max: nat)
    requires AllAgree(a) && HasFrames(a)
    ensures AllAgree(OnStart(a, f, max)) && AllAgree(OnBoundary(a, f, max))
  {
    hide Agree, Own, FinishActive, Open;
    var done := FinishActive(a, false, max);
    FinishAgrees(a, false, max);
    var first := if a.pendingStart.Some? then a.pendingStart.value else f;
    OpenAgrees(done, Commercial, first);
    OwnAgrees(Open(done, Commercial, first), f);
    OpenAgrees(done, Managerial, f);
    if Active(a, Managerial) {
      OwnAgrees(a, f);
      OwnHasFrames(a, f);
      FinishAgrees(Own(a, f), true, max);
    }
  }

  lemma SalesAgree(a: Assembly, f: Frame, max: nat)
    requires AllAgree(a) && HasFrames(a)
    ensures f.command.Item? ==> AllAgree(OnItem(a, f, max))
    ensures f.command.Total? ==> AllAgree(OnTotal(a, f, max))
  {
    hide Agree, ForSale, ChargeItem, ChargeTotal;
    ForSaleAgrees(a, f, max);
    var o := ForSale(a, f, max);
    if f.command.Item? {
      ItemAgrees(Account(o), f.command, f.frameId);
      ChargeAgrees(o, ChargeItem(Account(o), f.command, f.frameId));
    } else if f.command.Total? {
      TotalAgrees(Account(o), f.command.cents, f.frameId);
      ChargeAgrees(o, ChargeTotal(Account(o), f.command.cents, f.frameId));
    }
  }

  lemma TextAgrees(a: Assembly, f: Frame)
    requires AllAgree(a) && HasFrames(a)
    ensures AllAgree(OnOther(a, f)) && (f.command.Text? ==> AllAgree(OnText(a, f)))
  {
    hide Own;
    if a.active.Some? {
      OwnAgrees(a, f);
      OwnHasFrames(a, f);
    }
  }

  lemma ProcessAgrees(a: Assembly, f: Frame, max: nat)
    requires AllAgree(a) && HasFrames(a)
    ensures AllAgree(Process(a, f, max))
  {
    hide AllAgree, OnControl, OnStart, OnBoundary, OnManagement, OnItem, OnText, OnTotal, OnOther;
    if IsRequestProfile(f) {
      match f.command
      case Control(_) => ControlAgrees(a, f, max);
      case Start => OpenersAgree(a, f, max);
      case Boundary => OpenersAgree(a, f, max);
      case Management(_) => ManagementAgrees(a, f, max);
      case Item(_, _, _, _) => SalesAgree(a, f, max);
      case Text(_) => TextAgrees(a, f);
      case Total(_, _, _) => SalesAgree(a, f, max);
      case Display =>
      case Unclassified => TextAgrees(a, f);
    }
  }

  lemma {:induction false} ScanAgrees(frames: seq<Frame>, max: nat, limit: nat)
    ensures AllAgree(Scan(frames, max, limit))
  {
    if frames != [] {
      hide AllAgree, Process;
      ScanAgrees(frames[..|frames| - 1], max, limit);
      ProcessAgrees(Scan(frames[..|frames| - 1], max, limit), frames[|frames| - 1], max);
    }
  }

  /** The records of every assembled document agree with each other, for every request stream. */
  lemma RecordsAgree(frames: seq<Frame>, max: nat, limit: nat, i: nat)
    requires i < |Assemble(frames, max, limit).documents|
    ensures var d := Assemble(frames, max, limit).documents[i]; Agree(d.kind, d.fields)
  {
    hide Agree, Scan, FinishActive;
    ScanAgrees(frames, max, limit);
    FinishAgrees(Scan(frames, max, limit), false, max);
  }
}
