/** The records of a receipt are those of the commands in its own frames. */
module ReceiptRecords {
  import opened Options
  import opened PrintedAmounts
  import opened ReceiptModel
  import opened ReceiptInvariant

  // ---------------------------------------------------------------- subsequences

  /** a is b with some elements left out. */
  predicate Subsequence<T(==)>(a: seq<T>, b: seq<T>)
    decreases |b|
  {
    || a == []
    || (b != [] && a[|a| - 1] == b[|b| - 1] && Subsequence(a[..|a| - 1], b[..|b| - 1]))
    || (b != [] && Subsequence(a, b[..|b| - 1]))
  }

  lemma SubsequenceMore<T>(a: seq<T>, b: seq<T>, x: T)
    requires Subsequence(a, b)
    ensures Subsequence(a, b + [x]) && Subsequence(a + [x], b + [x])
  {
    assert (b + [x])[..|b|] == b && (a + [x])[..|a|] == a;
  }

  lemma {:induction false} SubsequenceJoin<T>(a: seq<T>, b: seq<T>, x: seq<T>, y: seq<T>)
    requires Subsequence(a, b) && Subsequence(x, y)
    ensures Subsequence(a + x, b + y)
    decreases |y|
  {
    if y == [] {
      assert a + x == a && b + y == b;
    } else {
      var m := |y| - 1;
      assert b + y == (b + y[..m]) + [y[m]];
      if x == [] {
        assert a + x == a + [];
        SubsequenceJoin(a, b, [], y[..m]);
        SubsequenceMore(a + [], b + y[..m], y[m]);
      } else if x[|x| - 1] == y[m] && Subsequence(x[..|x| - 1], y[..m]) {
        SubsequenceJoin(a, b, x[..|x| - 1], y[..m]);
        SubsequenceMore(a + x[..|x| - 1], b + y[..m], y[m]);
        assert a + x == (a + x[..|x| - 1]) + [y[m]];
      } else {
        SubsequenceJoin(a, b, x, y[..m]);
        SubsequenceMore(a + x, b + y[..m], y[m]);
      }
    }
  }

  lemma {:induction false} SubsequencePrefix<T>(a: seq<T>, b: seq<T>)
    requires a <= b
    ensures Subsequence(a, b)
    decreases |b|
  {
    if |a| < |b| {
      SubsequencePrefix(a, b[..|b| - 1]);
    } else if b != [] {
      SubsequencePrefix(a[..|a| - 1], b[..|b| - 1]);
    }
  }

  // ---------------------------------------------------------------- what the commands say

  function Joined(a: Fields, b: Fields): Fields {
    Fields(a.lines + b.lines, a.amounts + b.amounts, a.items + b.items, a.descriptions + b.descriptions,
           a.quantities + b.quantities, a.taxes + b.taxes, a.payments + b.payments, a.totals + b.totals)
  }

  /** Every list of a leaves out elements of the same list of b at most. */
  predicate Within(a: Fields, b: Fields) {
    && Subsequence(a.lines, b.lines) && Subsequence(a.amounts, b.amounts) && Subsequence(a.items, b.items)
    && Subsequence(a.descriptions, b.descriptions) && Subsequence(a.quantities, b.quantities)
    && Subsequence(a.taxes, b.taxes) && Subsequence(a.payments, b.payments) && Subsequence(a.totals, b.totals)
  }

  /** The amounts printed in a line that can be read, in order. */
  function Printed(matches: seq<Option<int>>): seq<int> {
    if matches == [] then []
    else (if matches[0].Some? then [matches[0].value] else []) + Printed(matches[1..])
  }

  /** The text of a line and its amounts. */
  function Shown(line: ManagementLine): Fields {
    NO_FIELDS.(lines := [line.text], amounts := Printed(line.amounts))
  }

  /** A cash line pays its last amount, a total line states one, a percentage line pairs its last two amounts, and a
      priced line before the first total is an item; a change line means nothing more. */
  function Meant(line: ManagementLine, afterTotal: bool): Fields {
    var amounts := Printed(line.amounts);
    var n := |amounts|;
    if n > 0 && line.prefix.Resto? then NO_FIELDS
    else if n > 0 && line.prefix.Contanti? then NO_FIELDS.(payments := [amounts[n - 1]])
    else if n > 0 && line.prefix.Tot? then
      NO_FIELDS.(totals := [TotalField(if n == 1 then Some(amounts[0]) else None, amounts)])
    else if n > 1 && line.percent then NO_FIELDS.(taxes := [Tax(amounts[n - 2], amounts[n - 1])])
    else if line.item.Some? && !afterTotal then
      NO_FIELDS.(items := [ItemField(line.item.value.description, line.item.value.cents, None)],
                 descriptions := [line.item.value.description])
    else NO_FIELDS
  }

  /** The records a frame's command calls for in a document of the given kind. */
  function Called(kind: Kind, f: Frame, afterTotal: bool): Fields {
    match f.command
    case Item(description, cents, quantity, _) =>
      if kind.Managerial? then NO_FIELDS
      else
        Fields([(if description == "" then "" else description + " ") + FormatCents(cents)], [cents],
               [ItemField(description, Some(cents), quantity)], [description],
               if quantity.Some? then [quantity.value] else [], [], [], [])
    case Total(cents, _, _) =>
      if kind.Managerial? then NO_FIELDS
      else
        NO_FIELDS.(lines := ["TOTALE " + FormatCents(cents), "IMPORTO PAGAMENTO " + FormatCents(cents)],
                   amounts := [cents], payments := [cents], totals := [TotalField(Some(cents), [])])
    case Text(text) => if kind.Managerial? then NO_FIELDS else NO_FIELDS.(lines := ["#" + text])
    case Management(line) => if kind.Commercial? then NO_FIELDS else Joined(Shown(line), Meant(line, afterTotal))
    case _ => NO_FIELDS
  }

  predicate IsTotalLine(f: Frame) {
    f.command.Management? && f.command.line.prefix.Tot? && Printed(f.command.line.amounts) != []
  }

  predicate AfterTotal(frames: seq<Frame>) {
    exists i :: 0 <= i < |frames| && IsTotalLine(frames[i])
  }

  /** The records a document's frames call for, in frame order. */
  function Content(kind: Kind, frames: seq<Frame>): Fields {
    if frames == [] then NO_FIELDS
    else
      var n := |frames| - 1;
      Joined(Content(kind, frames[..n]), Called(kind, frames[n], AfterTotal(frames[..n])))
  }

  lemma ContentAppend(kind: Kind, frames: seq<Frame>, f: Frame)
    ensures Content(kind, frames + [f]) == Joined(Content(kind, frames), Called(kind, f, AfterTotal(frames)))
    ensures AfterTotal(frames + [f]) <==> AfterTotal(frames) || IsTotalLine(f)
  {
    hide Called, IsTotalLine;
    var all := frames + [f];
    assert all[..|frames|] == frames && all[|frames|] == f;
    assert forall i | 0 <= i < |frames| :: all[i] == frames[i];
  }

  lemma WithinJoined(a: Fields, b: Fields, x: Fields, y: Fields)
    requires Within(a, b) && Within(x, y)
    ensures Within(Joined(a, x), Joined(b, y))
  {
    hide Subsequence;
    SubsequenceJoin(a.lines, b.lines, x.lines, y.lines);
    SubsequenceJoin(a.amounts, b.amounts, x.amounts, y.amounts);
    SubsequenceJoin(a.items, b.items, x.items, y.items);
    SubsequenceJoin(a.descriptions, b.descriptions, x.descriptions, y.descriptions);
    SubsequenceJoin(a.quantities, b.quantities, x.quantities, y.quantities);
    SubsequenceJoin(a.taxes, b.taxes, x.taxes, y.taxes);
    SubsequenceJoin(a.payments, b.payments, x.payments, y.payments);
    SubsequenceJoin(a.totals, b.totals, x.totals, y.totals);
  }

  lemma NothingWithin(a: Fields)
    ensures Within(NO_FIELDS, a) && Within(a, a) && Joined(a, NO_FIELDS) == a
  {
    hide Subsequence, Within, Joined;
    EmptyWithin(a);
    SameWithin(a);
    JoinedNothing(a);
  }

  lemma SameWithin(a: Fields)
    ensures Within(a, a)
  {
    hide Subsequence;
    SubsequencePrefix(a.lines, a.lines);
    SubsequencePrefix(a.amounts, a.amounts);
    SubsequencePrefix(a.items, a.items);
    SubsequencePrefix(a.descriptions, a.descriptions);
    SubsequencePrefix(a.quantities, a.quantities);
    SubsequencePrefix(a.taxes, a.taxes);
    SubsequencePrefix(a.payments, a.payments);
    SubsequencePrefix(a.totals, a.totals);
  }

  lemma EmptyWithin(a: Fields)
    ensures Within(NO_FIELDS, a)
  {
  }

  // ---------------------------------------------------------------- one charge

  /** Nothing was refused up to now. */
  predicate Unrefused(b: Budget) {
    b.firstRefused.None?
  }

  /** The fields hold what the ideal ones do except for what was refused. */
  predicate Filled(c: Charged, ideal: Fields) {
    Within(c.fields, ideal) && (Unrefused(c.budget) ==> c.fields == ideal)
  }

  /** Adding x where y was called for. */
  lemma FilledMore(c: Charged, d: Charged, ideal: Fields, x: Fields, y: Fields)
    requires Filled(c, ideal) && d.fields == Joined(c.fields, x) && Within(x, y)
    requires Unrefused(d.budget) ==> Unrefused(c.budget) && x == y
    ensures Filled(d, Joined(ideal, y))
  {
    hide Within;
    WithinJoined(c.fields, ideal, x, y);
  }

  lemma SaleFills(c: Charged, f: Frame, ideal: Fields, afterTotal: bool)
    requires Filled(c, ideal)
    ensures f.command.Item? ==> Filled(ChargeItem(c, f.command, f.frameId), Joined(ideal, Called(Commercial, f, afterTotal)))
    ensures f.command.Total? ==>
              Filled(ChargeTotal(c, f.command.cents, f.frameId), Joined(ideal, Called(Commercial, f, afterTotal)))
    ensures f.command.Text? ==>
              Filled(ChargeText(c, f.command.text, f.frameId), Joined(ideal, Called(Commercial, f, afterTotal)))
  {
    hide Within, Filled, Joined;
    var y := Called(Commercial, f, afterTotal);
    NothingWithin(y);
    JoinedNothing(c.fields);
    if f.command.Item? {
      ItemAdds(c, f, afterTotal);
      var d := ChargeItem(c, f.command, f.frameId);
      FilledMore(c, d, ideal, if d.fields == c.fields then NO_FIELDS else y, y);
    } else if f.command.Total? {
      TotalAdds(c, f, afterTotal);
      var d := ChargeTotal(c, f.command.cents, f.frameId);
      FilledMore(c, d, ideal, if d.fields == c.fields then NO_FIELDS else y, y);
    } else if f.command.Text? {
      TextAdds(c, f, afterTotal);
      var d := ChargeText(c, f.command.text, f.frameId);
      FilledMore(c, d, ideal, if d.fields == c.fields then NO_FIELDS else y, y);
    }
  }

  lemma JoinedNothing(a: Fields)
    ensures Joined(a, NO_FIELDS) == a
  {
  }

  /** All that was called for was added, or nothing and the budget says so. */
  predicate AllOrNothing(c: Charged, d: Charged, y: Fields) {
    || (d.fields == Joined(c.fields, y) && d.fields != c.fields && (Unrefused(d.budget) ==> Unrefused(c.budget)))
    || (d.fields == c.fields && !Unrefused(d.budget))
  }

  lemma ItemAdds(c: Charged, f: Frame, afterTotal: bool)
    requires f.command.Item?
    ensures AllOrNothing(c, ChargeItem(c, f.command, f.frameId), Called(Commercial, f, afterTotal))
  {
    var y := Called(Commercial, f, afterTotal);
    assert "" + FormatCents(f.command.cents) == FormatCents(f.command.cents);
    assert y.lines == [ItemLine(f.command.description, f.command.cents)];
    assert |(c.fields.items + y.items)| == |c.fields.items| + 1;
  }

  lemma TotalAdds(c: Charged, f: Frame, afterTotal: bool)
    requires f.command.Total?
    ensures AllOrNothing(c, ChargeTotal(c, f.command.cents, f.frameId), Called(Commercial, f, afterTotal))
  {
    var y := Called(Commercial, f, afterTotal);
    assert |(c.fields.totals + y.totals)| == |c.fields.totals| + 1;
  }

  lemma TextAdds(c: Charged, f: Frame, afterTotal: bool)
    requires f.command.Text?
    ensures AllOrNothing(c, ChargeText(c, f.command.text, f.frameId), Called(Commercial, f, afterTotal))
  {
    var y := Called(Commercial, f, afterTotal);
    assert |(c.fields.lines + y.lines)| == |c.fields.lines| + 1;
  }

  // ---------------------------------------------------------------- a management line

  /** The budget is used up and has said so. */
  predicate Exhausted(b: Budget) {
    b.limit <= b.used && !Unrefused(b)
  }

  lemma {:induction false} AmountsAre(matches: seq<Option<int>>, b: Budget, frameId: nat)
    ensures var a := AmountFields(matches, b, frameId);
            && a.values <= Printed(matches)
            && (a.values == Printed(matches) || Exhausted(a.budget))
            && (Unrefused(a.budget) ==> Unrefused(b))
            && (Exhausted(b) ==> Exhausted(a.budget) && a.values == [])
  {
    if matches != [] && b.used < b.limit {
      AmountsAre(matches[1..], if matches[0].None? then b else Reserve(b, 1, frameId), frameId);
    } else if matches != [] {
      assert [] <= Printed(matches);
    }
  }

  lemma PrintFills(c: Charged, line: ManagementLine, frameId: nat, ideal: Fields)
    requires Filled(c, ideal)
    ensures Filled(PrintLine(c, line, frameId), Joined(ideal, Shown(line)))
    ensures var amounts, b := LineAmounts(c, line, frameId), PrintLine(c, line, frameId).budget;
            && (amounts == Printed(line.amounts) || (amounts <= Printed(line.amounts) && Exhausted(b)))
            && (Unrefused(b) ==> Unrefused(c.budget)) && (Exhausted(c.budget) ==> Exhausted(b))
  {
    hide Within, Filled, AmountFields;
    var d := PrintLine(c, line, frameId);
    var b := Reserve(c.budget, 1, frameId);
    AmountsAre(line.amounts, b, frameId);
    var values := AmountFields(line.amounts, b, frameId).values;
    var x := NO_FIELDS.(lines := if Grants(c.budget, 1) then [line.text] else [], amounts := values);
    ShownWithin(x, line);
    FilledMore(c, d, ideal, x, Shown(line));
  }

  lemma ShownWithin(x: Fields, line: ManagementLine)
    requires x == NO_FIELDS.(lines := x.lines, amounts := x.amounts)
    requires x.lines <= [line.text] && x.amounts <= Printed(line.amounts)
    ensures Within(x, Shown(line))
  {
    hide Subsequence;
    SubsequencePrefix(x.lines, [line.text]);
    SubsequencePrefix(x.amounts, Printed(line.amounts));
    var none: Fields := NO_FIELDS;
    EmptyWithin(none);
  }

  /** Interpreting a line with a used-up budget adds nothing, and otherwise what the line means or, refused, nothing. */
  lemma InterpretAdds(c: Charged, amounts: seq<int>, line: ManagementLine, seen: bool, afterTotal: bool, frameId: nat)
    requires amounts == Printed(line.amounts) || Exhausted(c.budget)
    requires seen == afterTotal || Exhausted(c.budget)
    ensures var d, y := InterpretLine(c, amounts, line, seen, frameId), Meant(line, afterTotal);
            && (d.fields == c.fields || d.fields == Joined(c.fields, y))
            && (Unrefused(d.budget) ==> Unrefused(c.budget) && d.fields == Joined(c.fields, y))
            && (Exhausted(c.budget) ==> Exhausted(d.budget))
  {
    var y := Meant(line, afterTotal);
    JoinedNothing(c.fields);
    if Exhausted(c.budget) {
      assert !Grants(c.budget, 1) && !Grants(c.budget, 2);
    }
  }

  lemma LineFills(c: Charged, f: Frame, seen: bool, afterTotal: bool, ideal: Fields)
    requires f.command.Management? && Filled(c, ideal)
    requires seen == afterTotal || Exhausted(c.budget)
    ensures var line := f.command.line;
            var d := ChargeManagementLine(c, line, seen, f.frameId);
            && Filled(d, Joined(ideal, Called(Managerial, f, afterTotal)))
            && ((seen || ShowsTotal(c, line, f.frameId)) == (afterTotal || IsTotalLine(f)) || Exhausted(d.budget))
            && (Unrefused(d.budget) ==> Unrefused(c.budget))
  {
    hide Within, Filled, PrintLine, InterpretLine, Meant, Shown, Joined;
    var line := f.command.line;
    var p, amounts := PrintLine(c, line, f.frameId), LineAmounts(c, line, f.frameId);
    var d := ChargeManagementLine(c, line, seen, f.frameId);
    PrintFills(c, line, f.frameId, ideal);
    InterpretAdds(p, amounts, line, seen, afterTotal, f.frameId);
    var y := Meant(line, afterTotal);
    NothingWithin(y);
    JoinedNothing(p.fields);
    FilledMore(p, d, Joined(ideal, Shown(line)), if d.fields == p.fields && d.fields != Joined(p.fields, y) then NO_FIELDS else y, y);
    JoinedTwice(ideal, Shown(line), y);
  }

  lemma JoinedTwice(a: Fields, b: Fields, c: Fields)
    ensures Joined(Joined(a, b), c) == Joined(a, Joined(b, c))
  {
  }

  // ---------------------------------------------------------------- the assembly

  /** What the active builder remembers of an earlier total line is right, unless the budget was used up by then. */
  predicate Remembers(b: Builder, frames: seq<Frame>, budget: Budget) {
    b.kind.Managerial? ==> b.seenPrimaryTotal == AfterTotal(frames) || Exhausted(budget)
  }

  predicate DocumentsFilled(a: Assembly) {
    && (forall i | 0 <= i < |a.documents| ::
          Filled(Charged(a.documents[i].fields, a.budget), Content(a.documents[i].kind, a.documents[i].frames)))
    && (a.pendingStart.Some? ==> a.pendingStart.value.command.Control?)
  }

  /** The active builder has the records of these frames. */
  predicate ActiveFilled(a: Assembly, frames: seq<Frame>)
    requires a.active.Some?
  {
    var b := a.active.value;
    Filled(Account(a), Content(b.kind, frames)) && Remembers(b, frames, a.budget)
  }

  predicate AllFilled(a: Assembly) {
    DocumentsFilled(a) && (a.active.Some? ==> ActiveFilled(a, a.active.value.frames))
  }

  /** The active builder owns the new frame f, but not yet its records. */
  predicate Owes(a: Assembly, f: Frame) {
    && DocumentsFilled(a) && a.active.Some?
    && var frames := a.active.value.frames;
    && frames != [] && LastFrame(frames) == f && ActiveFilled(a, frames[..|frames| - 1])
  }

  /** The frame is not the last one the active builder took. */
  predicate Fresh(a: Assembly, f: Frame) {
    a.active.Some? ==> a.active.value.frames != [] && LastFrame(a.active.value.frames).frameId != f.frameId
  }

  lemma InvFresh(a: Assembly, f: Frame, last: int)
    requires Inv(a, last) && last < f.frameId
    ensures Fresh(a, f) && (a.pendingStart.Some? ==> a.pendingStart.value.frameId != f.frameId)
  {
  }

  lemma FinishFilled(a: Assembly, complete: bool, max: nat)
    requires AllFilled(a) && HasFrames(a)
    ensures AllFilled(FinishActive(a, complete, max)) && FinishActive(a, complete, max).active.None?
    ensures FinishActive(a, complete, max).budget == a.budget
  {
    hide Filled, Content, FinishBuilder, Remembers;
    if a.active.Some? {
      FinishCopies(a.active.value, |a.documents| + 1, complete);
    }
  }

  /** Opened on f, a builder owes f's records. */
  lemma OpenOwes(a: Assembly, kind: Kind, f: Frame)
    requires AllFilled(a) && a.active.None?
    ensures Owes(Open(a, kind, f), f) && Active(Open(a, kind, f), kind)
  {
    hide Filled;
    var o := Open(a, kind, f);
    assert o.active.value.frames == [f] && [f][..0] == [];
    EmptyFilled(o.budget);
  }

  lemma EmptyFilled(b: Budget)
    ensures Filled(Charged(NO_FIELDS, b), NO_FIELDS)
  {
    NothingWithin(NO_FIELDS);
  }

  lemma OwnOwes(a: Assembly, f: Frame)
    requires AllFilled(a) && a.active.Some? && Fresh(a, f)
    ensures Owes(Own(a, f), f) && Own(a, f).active.value.kind == a.active.value.kind
  {
    hide Filled, Content;
    var frames := a.active.value.frames;
    assert (frames + [f])[..|frames|] == frames;
  }

  /** Frames that call for nothing. */
  lemma OwesNothing(a: Assembly, f: Frame)
    requires Owes(a, f) && !IsTotalLine(f)
    requires Called(a.active.value.kind, f, AfterTotal(a.active.value.frames[..|a.active.value.frames| - 1])) == NO_FIELDS
    ensures AllFilled(a)
  {
    hide Filled, Called;
    var b := a.active.value;
    var before := b.frames[..|b.frames| - 1];
    assert b.frames == before + [f];
    ContentAppend(b.kind, before, f);
    JoinedNothing(Content(b.kind, before));
  }

  lemma ReportOwes(a: Assembly, code: IssueCode, g: Frame, f: Frame)
    requires Owes(a, f)
    ensures Owes(Report(a, code, g), f) && Report(a, code, g).active.value.kind == a.active.value.kind
  {
    hide Filled, Content;
  }

  /** The records are charged. */
  lemma ChargePays(a: Assembly, f: Frame, c: Charged)
    requires Owes(a, f) && !IsTotalLine(f)
    requires var b := a.active.value;
             var before := b.frames[..|b.frames| - 1];
             Filled(c, Joined(Content(b.kind, before), Called(b.kind, f, AfterTotal(before))))
    requires (Unrefused(c.budget) ==> Unrefused(a.budget)) && a.active.value.kind.Commercial?
    ensures AllFilled(Charge(a, c))
  {
    hide Called, Within, Content;
    var b := a.active.value;
    var before := b.frames[..|b.frames| - 1];
    assert b.frames == before + [f];
    ContentAppend(b.kind, before, f);
  }

  lemma ForSaleOwes(a: Assembly, f: Frame, max: nat)
    requires AllFilled(a) && HasFrames(a) && Fresh(a, f)
    ensures Owes(ForSale(a, f, max), f)
  {
    hide Owes, AllFilled, FinishActive, Open, Own, Report;
    if Active(a, Commercial) {
      OwnOwes(a, f);
    } else {
      var done := FinishActive(a, false, max);
      FinishFilled(a, false, max);
      OpenOwes(done, Commercial, f);
      OwnOpened(done, Commercial, f, Some(MissingCommercialStart));
      OwnOpened(done, Commercial, f, None);
      ReportOwes(Open(done, Commercial, f), MissingCommercialStart, f, f);
    }
  }

  lemma ForLineOwes(a: Assembly, f: Frame, max: nat)
    requires AllFilled(a) && HasFrames(a) && Fresh(a, f)
    ensures var o := ForLine(a, f, max); o.active.Some? && Owes(Own(o, f), f) && Active(Own(o, f), Managerial)
  {
    hide Owes, AllFilled, FinishActive, Open, Own, Report;
    if a.active.None? {
      OpenOwes(a, Managerial, f);
      OwnOpened(a, Managerial, f, Some(MissingOpenBoundary));
      OwnOpened(a, Managerial, f, None);
      ReportOwes(Open(a, Managerial, f), MissingOpenBoundary, f, f);
    } else if !Active(a, Managerial) {
      FinishFilled(a, false, max);
      OpenOwes(FinishActive(a, false, max), Managerial, f);
      OwnOpened(FinishActive(a, false, max), Managerial, f, None);
    } else {
      OwnOwes(a, f);
      OwnFrame(a, f);
    }
  }

  // ---------------------------------------------------------------- every command

  lemma SaleRecorded(a: Assembly, f: Frame, max: nat)
    requires AllFilled(a) && HasFrames(a) && Fresh(a, f)
    ensures f.command.Item? ==> AllFilled(OnItem(a, f, max))
    ensures f.command.Total? ==> AllFilled(OnTotal(a, f, max))
  {
    hide ForSale, ChargeItem, ChargeTotal, Filled, Content, Called;
    ForSaleOwes(a, f, max);
    var o := ForSale(a, f, max);
    var before := o.active.value.frames[..|o.active.value.frames| - 1];
    SaleFills(Account(o), f, Content(Commercial, before), AfterTotal(before));
    SaleRefuses(Account(o), f);
    if f.command.Item? {
      ChargePays(o, f, ChargeItem(Account(o), f.command, f.frameId));
    } else if f.command.Total? {
      ChargePays(o, f, ChargeTotal(Account(o), f.command.cents, f.frameId));
      MoveFilled(Charge(o, ChargeTotal(Account(o), f.command.cents, f.frameId)), CommercialPayment, f);
    }
  }

  lemma SaleRefuses(c: Charged, f: Frame)
    ensures f.command.Item? ==> (Unrefused(ChargeItem(c, f.command, f.frameId).budget) ==> Unrefused(c.budget))
    ensures f.command.Total? ==> (Unrefused(ChargeTotal(c, f.command.cents, f.frameId).budget) ==> Unrefused(c.budget))
    ensures f.command.Text? ==> (Unrefused(ChargeText(c, f.command.text, f.frameId).budget) ==> Unrefused(c.budget))
  {
  }

  lemma MoveFilled(a: Assembly, target: State, f: Frame)
    requires AllFilled(a) && a.active.Some?
    ensures AllFilled(a.(active := Some(MoveTo(a.active.value, target, f))))
  {
    hide Filled, Content;
  }

  lemma OtherRecorded(a: Assembly, f: Frame)
    requires AllFilled(a) && HasFrames(a) && Fresh(a, f)
    requires f.command.Control? || f.command.Unclassified? || f.command.Boundary? || f.command.Start? || f.command.Text?
    requires a.active.Some? && (f.command.Text? ==> a.active.value.kind.Managerial?)
    ensures AllFilled(Own(a, f))
  {
    hide AllFilled, Own, Content;
    OwnOwes(a, f);
    hide Owes;
    OwesNothing(Own(a, f), f);
  }

  lemma TextRecorded(a: Assembly, f: Frame)
    requires AllFilled(a) && HasFrames(a) && Fresh(a, f) && f.command.Text?
    ensures AllFilled(OnText(a, f))
  {
    if Active(a, Commercial) {
      hide Own, ChargeText, Filled, Content, Called;
      OwnOwes(a, f);
      var o := Own(a, f);
      var before := o.active.value.frames[..|o.active.value.frames| - 1];
      SaleFills(Account(o), f, Content(Commercial, before), AfterTotal(before));
      SaleRefuses(Account(o), f);
      ChargePays(o, f, ChargeText(Account(o), f.command.text, f.frameId));
    } else if a.active.Some? {
      OtherRecorded(a, f);
    }
  }

  lemma ControlRecorded(a: Assembly, f: Frame, max: nat)
    requires AllFilled(a) && HasFrames(a) && Fresh(a, f) && f.command.Control?
    ensures AllFilled(OnControl(a, f, max))
  {
    if Active(a, Commercial) {
      OtherRecorded(a, f);
      OwnFrame(a, f);
      OwnKeepsFrames(a, f);
      hide AllFilled, Own, FinishActive;
      var o := Own(a, f);
      FinishFilled(o, true, max);
      MoveFilled(o, CommercialPostlude, f);
    } else {
      hide Filled, Content;
    }
  }

  lemma OwnKeepsFrames(a: Assembly, f: Frame)
    requires a.active.Some?
    ensures HasFrames(Own(a, f))
  {
  }

  lemma StartRecorded(a: Assembly, f: Frame, max: nat)
    requires AllFilled(a) && HasFrames(a) && f.command.Start?
    requires a.pendingStart.Some? ==> a.pendingStart.value.frameId != f.frameId
    ensures AllFilled(OnStart(a, f, max))
  {
    hide AllFilled, FinishActive, Open, Own, Content;
    var first := if a.pendingStart.Some? then a.pendingStart.value else f;
    var done := FinishActive(a, false, max);
    FinishFilled(a, false, max);
    PendingIsControl(a);
    OpenOwes(done, Commercial, first);
    var o := Open(done, Commercial, first);
    OpenedFrames(done, Commercial, first);
    hide Owes;
    OwesNothing(o, first);
    if a.pendingStart.Some? {
      OtherRecorded(o, f);
    } else {
      OwnOpened(done, Commercial, f, None);
    }
    PendingCleared(Own(o, f));
  }

  lemma PendingIsControl(a: Assembly)
    requires AllFilled(a)
    ensures a.pendingStart.Some? ==> a.pendingStart.value.command.Control?
  {
  }

  lemma PendingCleared(a: Assembly)
    requires AllFilled(a)
    ensures AllFilled(a.(pendingStart := None))
  {
    hide Filled, Content;
  }

  lemma OpenedFrames(a: Assembly, kind: Kind, f: Frame)
    ensures Open(a, kind, f).active.Some? && Open(a, kind, f).active.value.frames == [f]
    ensures Open(a, kind, f).active.value.kind == kind
  {
  }

  lemma BoundaryRecorded(a: Assembly, f: Frame, max: nat)
    requires AllFilled(a) && HasFrames(a) && Fresh(a, f) && f.command.Boundary?
    ensures AllFilled(OnBoundary(a, f, max))
  {
    hide AllFilled, FinishActive, Open, Own, Content, Owes;
    if Active(a, Managerial) {
      OtherRecorded(a, f);
      OwnKeepsFrames(a, f);
      FinishFilled(Own(a, f), true, max);
      PendingCleared(FinishActive(Own(a, f), true, max));
    } else {
      var done := FinishActive(a, false, max);
      FinishFilled(a, false, max);
      OpenOwes(done, Managerial, f);
      OpenedFrames(done, Managerial, f);
      OwesNothing(Open(done, Managerial, f), f);
      PendingCleared(Open(done, Managerial, f));
    }
  }

  lemma LineRecorded(a: Assembly, f: Frame, max: nat)
    requires AllFilled(a) && HasFrames(a) && Fresh(a, f) && f.command.Management?
    ensures AllFilled(OnManagement(a, f, max))
  {
    hide ChargeManagementLine, ShowsTotal, Filled, Content, Called, Own, Open, Report, FinishActive, IsTotalLine;
    ForLineOwes(a, f, max);
    var p := Own(ForLine(a, f, max), f);
    var b := p.active.value;
    var before := b.frames[..|b.frames| - 1];
    LinePays(p, f);
  }

  /** The line's records are charged to the builder that owns it. */
  lemma LinePays(p: Assembly, f: Frame)
    requires Owes(p, f) && Active(p, Managerial) && f.command.Management?
    ensures var b := p.active.value;
            var seen := b.seenPrimaryTotal || ShowsTotal(Account(p), f.command.line, f.frameId);
            var c := ChargeManagementLine(Account(p), f.command.line, b.seenPrimaryTotal, f.frameId);
            AllFilled(Charge(p.(active := Some(b.(seenPrimaryTotal := seen))), c))
  {
    hide ChargeManagementLine, ShowsTotal, Called, Within, Content, IsTotalLine;
    var b := p.active.value;
    var before := b.frames[..|b.frames| - 1];
    assert b.frames == before + [f];
    ContentAppend(Managerial, before, f);
    LineFills(Account(p), f, b.seenPrimaryTotal, AfterTotal(before), Content(Managerial, before));
  }

  lemma ProcessRecorded(a: Assembly, f: Frame, max: nat)
    requires AllFilled(a) && HasFrames(a) && Fresh(a, f)
    requires a.pendingStart.Some? ==> a.pendingStart.value.frameId != f.frameId
    ensures AllFilled(Process(a, f, max))
  {
    hide AllFilled, OnControl, OnStart, OnBoundary, OnManagement, OnItem, OnText, OnTotal, Own;
    if IsRequestProfile(f) {
      match f.command
      case Control(_) => ControlRecorded(a, f, max);
      case Start => StartRecorded(a, f, max);
      case Boundary => BoundaryRecorded(a, f, max);
      case Management(_) => LineRecorded(a, f, max);
      case Item(_, _, _, _) => SaleRecorded(a, f, max);
      case Text(_) => TextRecorded(a, f);
      case Total(_, _, _) => SaleRecorded(a, f, max);
      case Display =>
      case Unclassified =>
        if a.active.Some? {
          OtherRecorded(a, f);
        }
    }
  }

  lemma {:induction false} ScanRecorded(frames: seq<Frame>, max: nat, limit: nat)
    requires IdsRise(frames)
    ensures AllFilled(Scan(frames, max, limit))
  {
    hide Inv, Process, Fresh;
    if frames == [] {
      NothingFilled(limit);
    } else {
      hide AllFilled;
      var n := |frames| - 1;
      var before := Scan(frames[..n], max, limit);
      ScanRecorded(frames[..n], max, limit);
      ScanKeeps(frames[..n], max, limit);
      InvFresh(before, frames[n], LastId(frames[..n]));
      ProcessRecorded(before, frames[n], max);
    }
  }

  lemma NothingFilled(limit: nat)
    ensures AllFilled(NewAssembly(limit))
  {
  }

  /** For every request stream: a document's records are exactly what the commands in its own frames call for, in frame
      order, if the budget refused nothing; what it refused is left out, and nothing is added or moved. */
  lemma RecordsAreCommands(frames: seq<Frame>, max: nat, limit: nat, i: nat)
    requires IdsRise(frames) && i < |Assemble(frames, max, limit).documents|
    ensures var a := Assemble(frames, max, limit);
            var d := a.documents[i];
            && Within(d.fields, Content(d.kind, d.frames))
            && (a.budget.firstRefused.None? ==> d.fields == Content(d.kind, d.frames))
  {
    hide Scan, FinishActive, Content, Within;
    ScanRecorded(frames, max, limit);
    FinishFilled(Scan(frames, max, limit), false, max);
  }

  // ---------------------------------------------------------------- the first refusal

  /** A budget that has refused keeps naming the frame it refused first; a new refusal names this frame. */
  predicate NamesFirst(b: Budget, c: Budget, frameId: nat) {
    if b.firstRefused.Some? then c.firstRefused == b.firstRefused
    else c.firstRefused.Some? ==> c.firstRefused == Some(frameId)
  }

  lemma {:induction false} AmountsName(matches: seq<Option<int>>, b: Budget, frameId: nat)
    ensures NamesFirst(b, AmountFields(matches, b, frameId).budget, frameId)
  {
    if matches != [] && b.used < b.limit {
      AmountsName(matches[1..], if matches[0].None? then b else Reserve(b, 1, frameId), frameId);
    }
  }

  lemma ChargesName(c: Charged, f: Frame, seen: bool)
    ensures f.command.Item? ==> NamesFirst(c.budget, ChargeItem(c, f.command, f.frameId).budget, f.frameId)
    ensures f.command.Total? ==> NamesFirst(c.budget, ChargeTotal(c, f.command.cents, f.frameId).budget, f.frameId)
    ensures f.command.Text? ==> NamesFirst(c.budget, ChargeText(c, f.command.text, f.frameId).budget, f.frameId)
    ensures f.command.Management? ==>
              NamesFirst(c.budget, ChargeManagementLine(c, f.command.line, seen, f.frameId).budget, f.frameId)
  {
    if f.command.Management? {
      AmountsName(f.command.line.amounts, Reserve(c.budget, 1, f.frameId), f.frameId);
      InterpretNames(PrintLine(c, f.command.line, f.frameId), LineAmounts(c, f.command.line, f.frameId), f, seen);
      hide InterpretLine, AmountFields;
    }
  }

  lemma InterpretNames(c: Charged, amounts: seq<int>, f: Frame, seen: bool)
    requires f.command.Management?
    ensures NamesFirst(c.budget, InterpretLine(c, amounts, f.command.line, seen, f.frameId).budget, f.frameId)
  {
  }

  lemma FinishBudget(a: Assembly, complete: bool, max: nat)
    requires HasFrames(a)
    ensures FinishActive(a, complete, max).budget == a.budget
  {
    hide FinishBuilder;
  }

  /** The budget's refusal names the frame whose records were refused first, whatever comes later. */
  lemma FirstRefusalNamed(a: Assembly, f: Frame, max: nat)
    requires HasFrames(a)
    ensures NamesFirst(a.budget, Process(a, f, max).budget, f.frameId)
  {
    hide FinishActive, NewBuilder, AddFrame, MoveTo, ChargeManagementLine, ChargeItem, ChargeTotal, ChargeText, ShowsTotal;
    FinishBudget(a, false, max);
    if IsRequestProfile(f) {
      match f.command
      case Item(_, _, _, _) => ChargesName(Account(ForSale(a, f, max)), f, false);
      case Total(_, _, _) => ChargesName(Account(ForSale(a, f, max)), f, false);
      case Text(_) =>
        if Active(a, Commercial) {
          ChargesName(Account(Own(a, f)), f, false);
        }
      case Management(_) =>
        var p := Own(ForLine(a, f, max), f);
        ChargesName(Account(p), f, p.active.value.seenPrimaryTotal);
      case Control(_) => ControlBudget(a, f, max);
      case Boundary => BoundaryBudget(a, f, max);
      case _ =>
    }
  }

  lemma ControlBudget(a: Assembly, f: Frame, max: nat)
    requires HasFrames(a) && f.command.Control?
    ensures OnControl(a, f, max).budget == a.budget
  {
    if Active(a, Commercial) {
      OwnKeepsFrames(a, f);
      FinishBudget(Own(a, f), true, max);
      hide FinishActive;
    }
  }

  lemma BoundaryBudget(a: Assembly, f: Frame, max: nat)
    requires HasFrames(a)
    ensures OnBoundary(a, f, max).budget == a.budget
  {
    FinishBudget(a, false, max);
    if Active(a, Managerial) {
      OwnKeepsFrames(a, f);
      FinishBudget(Own(a, f), true, max);
    }
    hide FinishActive;
  }

  // ---------------------------------------------------------------- commercial receipts

  /** The cents of the total commands, in frame order. */
  function Paid(frames: seq<Frame>): seq<int> {
    if frames == [] then []
    else Paid(frames[..|frames| - 1]) + PaidBy(LastFrame(frames))
  }

  /** The item commands, in frame order. */
  function Sold(frames: seq<Frame>): (r: seq<Command>)
    ensures forall i | 0 <= i < |r| :: r[i].Item?
  {
    if frames == [] then []
    else Sold(frames[..|frames| - 1]) + SoldBy(LastFrame(frames))
  }

  /** The items and totals that the item and total commands stand for. */
  function ItemsOf(sold: seq<Command>): seq<ItemField>
    requires forall i | 0 <= i < |sold| :: sold[i].Item?
  {
    seq(|sold|, i requires 0 <= i < |sold| => ItemField(sold[i].description, Some(sold[i].cents), sold[i].quantity))
  }

  function TotalsOf(paid: seq<int>): seq<TotalField> {
    seq(|paid|, i requires 0 <= i < |paid| => TotalField(Some(paid[i]), []))
  }

  function PaidBy(f: Frame): seq<int> {
    if f.command.Total? then [f.command.cents] else []
  }

  function SoldBy(f: Frame): (r: seq<Command>)
    ensures forall i | 0 <= i < |r| :: r[i].Item?
  {
    if f.command.Item? then [f.command] else []
  }

  lemma CalledCommercial(f: Frame, afterTotal: bool)
    ensures var c := Called(Commercial, f, afterTotal);
            && c.payments == PaidBy(f) && c.totals == TotalsOf(PaidBy(f)) && c.items == ItemsOf(SoldBy(f)) && c.taxes == []
  {
  }

  lemma TotalsJoin(a: seq<int>, b: seq<int>)
    ensures TotalsOf(a + b) == TotalsOf(a) + TotalsOf(b)
  {
  }

  lemma ItemsJoin(a: seq<Command>, b: seq<Command>)
    requires forall i | 0 <= i < |a| :: a[i].Item?
    requires forall i | 0 <= i < |b| :: b[i].Item?
    ensures forall i | 0 <= i < |a + b| :: (a + b)[i].Item?
    ensures ItemsOf(a + b) == ItemsOf(a) + ItemsOf(b)
  {
  }

  /** What the content of a commercial receipt comes to: each total command a total and a payment of its cents, each item
      command an item. */
  lemma {:induction false} CommercialContent(frames: seq<Frame>)
    ensures var c := Content(Commercial, frames);
            && c.payments == Paid(frames) && c.totals == TotalsOf(Paid(frames)) && c.items == ItemsOf(Sold(frames))
            && c.taxes == []
  {
    if frames != [] {
      hide AfterTotal, Called, ItemsOf, TotalsOf;
      var before, f := frames[..|frames| - 1], LastFrame(frames);
      CommercialContent(before);
      CalledCommercial(f, AfterTotal(before));
      TotalsJoin(Paid(before), PaidBy(f));
      ItemsJoin(Sold(before), SoldBy(f));
    } else {
      NoContent();
    }
  }

  lemma NoContent()
    ensures TotalsOf([]) == [] && ItemsOf([]) == []
  {
  }
}
