/** Assembly of receipt documents from classified request commands: the value-level specification. */
module ReceiptModel {
  import opened Options
  import opened PrintedAmounts

  // ---------------------------------------------------------------- classified commands

  /** Payloads that start with the control prefix: the prefix alone, prefix and one digit, the counter query, others. */
  datatype ControlKind = Bare | Numbered | CounterQuery | OtherControl

  /** The recognised beginnings of a printed management line. */
  datatype LinePrefix = Resto | Contanti | Tot | NoPrefix

  datatype PrintedItem = PrintedItem(description: string, cents: Option<int>)

  /** A printable management line with what its text matches; amounts holds every printed amount in it, in order. */
  datatype ManagementLine = ManagementLine(
    text: string,
    amounts: seq<Option<int>>,
    prefix: LinePrefix,
    percent: bool,
    item: Option<PrintedItem>)

  datatype Command =
    | Control(kind: ControlKind)
    | Start
    | Boundary
    | Management(line: ManagementLine)
    | Item(description: string, cents: int, quantity: Option<int>, code: string)
    | Text(text: string)
    | Total(cents: int, code: string, wholePayload: bool)
    | Display
    | Unclassified

  datatype Frame = Frame(
    frameId: nat,
    streamOffset: nat,
    endOffset: nat,
    bccValid: bool,
    address: string,
    frameClass: char,
    sequence: string,
    command: Command)

  predicate IsRequestProfile(f: Frame) {
    f.bccValid && f.address == "00" && f.frameClass == 'z'
  }

  // ---------------------------------------------------------------- derived fields and their budget

  datatype ItemField = ItemField(description: string, cents: Option<int>, quantity: Option<int>)

  datatype Tax = Tax(taxable: int, tax: int)

  datatype TotalField = TotalField(cents: Option<int>, amounts: seq<int>)

  datatype Fields = Fields(
    lines: seq<string>,
    amounts: seq<int>,
    items: seq<ItemField>,
    descriptions: seq<string>,
    quantities: seq<int>,
    taxes: seq<Tax>,
    payments: seq<int>,
    totals: seq<TotalField>)
  {
    function Count(): nat {
      |lines| + |amounts| + |items| + |descriptions| + |quantities| + |taxes| + |payments| + |totals|
    }
  }

  const NO_FIELDS := Fields([], [], [], [], [], [], [], [])

  /** One global bound on derived records; firstRefused is the frame of the first refusal. */
  datatype Budget = Budget(limit: nat, used: nat, firstRefused: Option<nat>)

  predicate Grants(b: Budget, count: nat) {
    b.used + count <= b.limit
  }

  function Reserve(b: Budget, count: nat, frameId: nat): Budget {
    if Grants(b, count) then b.(used := b.used + count)
    else if b.firstRefused.None? then b.(firstRefused := Some(frameId))
    else b
  }

  /** Fields together with the budget they were charged to. */
  datatype Charged = Charged(fields: Fields, budget: Budget)

  datatype Amounts = Amounts(values: seq<int>, budget: Budget)

  /** Takes the printed amounts of a line one by one until the budget is used up. */
  function AmountFields(matches: seq<Option<int>>, b: Budget, frameId: nat): Amounts {
    if matches == [] then Amounts([], b)
    else if b.used >= b.limit then Amounts([], Reserve(b, 1, frameId))
    else if matches[0].None? then AmountFields(matches[1..], b, frameId)
    else
      var rest := AmountFields(matches[1..], Reserve(b, 1, frameId), frameId);
      Amounts([matches[0].value] + rest.values, rest.budget)
  }

  /** The line itself and its amounts. */
  function PrintLine(c: Charged, line: ManagementLine, frameId: nat): Charged {
    var b := Reserve(c.budget, 1, frameId);
    var f := if Grants(c.budget, 1) then c.fields.(lines := c.fields.lines + [line.text]) else c.fields;
    var a := AmountFields(line.amounts, b, frameId);
    Charged(f.(amounts := f.amounts + a.values), a.budget)
  }

  function LastOf(s: seq<int>): int
    requires s != []
  {
    s[|s| - 1]
  }

  /** What the line means beyond its text: change, a payment, a total, a tax pair or an item before the first total. */
  function InterpretLine(c: Charged, amounts: seq<int>, line: ManagementLine, seenTotal: bool, frameId: nat): Charged {
    var f, b := c.fields, c.budget;
    if line.prefix.Resto? && amounts != [] then c
    else if line.prefix.Contanti? && amounts != [] then
      Charged(if Grants(b, 1) then f.(payments := f.payments + [LastOf(amounts)]) else f, Reserve(b, 1, frameId))
    else if line.prefix.Tot? && amounts != [] then
      var total := TotalField(if |amounts| == 1 then Some(LastOf(amounts)) else None, amounts);
      Charged(if Grants(b, 1) then f.(totals := f.totals + [total]) else f, Reserve(b, 1, frameId))
    else if line.percent && |amounts| >= 2 then
      var tax := Tax(amounts[|amounts| - 2], LastOf(amounts));
      Charged(if Grants(b, 1) then f.(taxes := f.taxes + [tax]) else f, Reserve(b, 1, frameId))
    else if line.item.Some? && !seenTotal then
      var i := line.item.value;
      Charged(if Grants(b, 2) then
                f.(items := f.items + [ItemField(i.description, i.cents, None)], descriptions := f.descriptions + [i.description])
              else f,
              Reserve(b, 2, frameId))
    else c
  }

  function LineAmounts(c: Charged, line: ManagementLine, frameId: nat): seq<int> {
    AmountFields(line.amounts, Reserve(c.budget, 1, frameId), frameId).values
  }

  function ChargeManagementLine(c: Charged, line: ManagementLine, seenTotal: bool, frameId: nat): Charged {
    InterpretLine(PrintLine(c, line, frameId), LineAmounts(c, line, frameId), line, seenTotal, frameId)
  }

  /** Only a TOT line that is not change or cash marks the primary total. */
  predicate ShowsTotal(c: Charged, line: ManagementLine, frameId: nat) {
    line.prefix.Tot? && LineAmounts(c, line, frameId) != []
  }

  function ItemLine(description: string, cents: int): string {
    if description != "" then description + " " + FormatCents(cents) else FormatCents(cents)
  }

  function ChargeItem(c: Charged, i: Command, frameId: nat): Charged
    requires i.Item?
  {
    var f := c.fields;
    var count := if i.quantity.Some? then 5 else 4;
    Charged(
      if Grants(c.budget, count) then
        f.(items := f.items + [ItemField(i.description, Some(i.cents), i.quantity)],
           descriptions := f.descriptions + [i.description],
           amounts := f.amounts + [i.cents],
           quantities := f.quantities + (if i.quantity.Some? then [i.quantity.value] else []),
           lines := f.lines + [ItemLine(i.description, i.cents)])
      else f,
      Reserve(c.budget, count, frameId))
  }

  function ChargeTotal(c: Charged, cents: int, frameId: nat): Charged {
    var f := c.fields;
    Charged(
      if Grants(c.budget, 5) then
        f.(totals := f.totals + [TotalField(Some(cents), [])],
           payments := f.payments + [cents],
           amounts := f.amounts + [cents],
           lines := f.lines + ["TOTALE " + FormatCents(cents), "IMPORTO PAGAMENTO " + FormatCents(cents)])
      else f,
      Reserve(c.budget, 5, frameId))
  }

  function ChargeText(c: Charged, text: string, frameId: nat): Charged {
    Charged(if Grants(c.budget, 1) then c.fields.(lines := c.fields.lines + ["#" + text]) else c.fields,
            Reserve(c.budget, 1, frameId))
  }

  // ---------------------------------------------------------------- builders and documents

  datatype Kind = Commercial | Managerial

  datatype State = Idle | CommercialBody | CommercialPayment | CommercialPostlude | ManagementBody | Complete | Incomplete

  datatype Transition = Transition(source: State, target: State, frameId: nat)

  datatype IssueCode = MissingOpenBoundary | MissingCommercialStart | IncompleteDocument | DocumentLimitExceeded

  datatype Issue = Issue(code: IssueCode, frameId: nat)

  datatype Builder = Builder(
    kind: Kind,
    startFrame: Frame,
    frames: seq<Frame>,
    issues: seq<Issue>,
    seenPrimaryTotal: bool,
    state: State,
    transitions: seq<Transition>,
    fields: Fields)

  datatype Document = Document(
    number: nat,
    kind: Kind,
    complete: bool,
    frames: seq<Frame>,
    startOffset: nat,
    endOffset: nat,
    issues: seq<Issue>,
    state: State,
    transitions: seq<Transition>,
    fields: Fields,
    documentNumber: Option<string>,
    numberSource: Option<nat>,
    footer: seq<string>)

  function MoveTo(b: Builder, target: State, f: Frame): Builder {
    if b.state == target then b
    else b.(transitions := b.transitions + [Transition(b.state, target, f.frameId)], state := target)
  }

  function AddFrame(b: Builder, f: Frame): Builder {
    if b.frames == [] || b.frames[|b.frames| - 1].frameId != f.frameId then b.(frames := b.frames + [f]) else b
  }

  function NewBuilder(kind: Kind, f: Frame): Builder {
    MoveTo(Builder(kind, f, [f], [], false, Idle, [], NO_FIELDS), if kind.Commercial? then CommercialBody else ManagementBody, f)
  }

  function LastFrame(frames: seq<Frame>): Frame
    requires frames != []
  {
    frames[|frames| - 1]
  }

  function FinishBuilder(b: Builder, number: nat, complete: bool): Document
    requires b.frames != []
  {
    var last := LastFrame(b.frames);
    var issues := if complete then b.issues else b.issues + [Issue(IncompleteDocument, last.frameId)];
    var done := MoveTo(b, if complete then Complete else Incomplete, last);
    Document(number, b.kind, complete, b.frames, b.startFrame.streamOffset, last.endOffset, issues, done.state,
             done.transitions, b.fields, None, None, [])
  }

  // ---------------------------------------------------------------- the scan over the request frames

  /** omitted holds the builders dropped by the document limit. */
  datatype Assembly = Assembly(
    documents: seq<Document>,
    issues: seq<Issue>,
    active: Option<Builder>,
    pendingStart: Option<Frame>,
    limitReported: bool,
    omitted: seq<Builder>,
    budget: Budget)

  function NewAssembly(limit: nat): Assembly {
    Assembly([], [], None, None, false, [], Budget(limit, 0, None))
  }

  function FinishActive(a: Assembly, complete: bool, maxDocuments: nat): Assembly
    requires a.active.Some? ==> a.active.value.frames != []
  {
    if a.active.None? then a
    else
      var b := a.active.value;
      if |a.documents| < maxDocuments then
        var d := FinishBuilder(b, |a.documents| + 1, complete);
        a.(documents := a.documents + [d], issues := a.issues + d.issues, active := None)
      else
        a.(omitted := a.omitted + [b],
           issues := if a.limitReported then a.issues else a.issues + [Issue(DocumentLimitExceeded, b.startFrame.frameId)],
           limitReported := true,
           active := None)
  }

  predicate HasFrames(a: Assembly) {
    a.active.Some? ==> a.active.value.frames != []
  }

  predicate Closes(kind: Kind, c: Command) {
    if kind.Commercial? then c.Control? && (c.kind.Bare? || c.kind.Numbered?) else c.Boundary?
  }

  function Own(a: Assembly, f: Frame): Assembly
    requires a.active.Some?
  {
    a.(active := Some(AddFrame(a.active.value, f)))
  }

  function Open(a: Assembly, kind: Kind, f: Frame): Assembly {
    a.(active := Some(NewBuilder(kind, f)))
  }

  function Report(a: Assembly, code: IssueCode, f: Frame): Assembly
    requires a.active.Some?
  {
    var b := a.active.value;
    a.(active := Some(b.(issues := b.issues + [Issue(code, f.frameId)])))
  }

  function Charge(a: Assembly, c: Charged): Assembly
    requires a.active.Some?
  {
    a.(active := Some(a.active.value.(fields := c.fields)), budget := c.budget)
  }

  function Account(a: Assembly): Charged
    requires a.active.Some?
  {
    Charged(a.active.value.fields, a.budget)
  }

  predicate Active(a: Assembly, kind: Kind) {
    a.active.Some? && a.active.value.kind == kind
  }

  function OnControl(a: Assembly, f: Frame, max: nat): (r: Assembly)
    requires f.command.Control? && HasFrames(a)
    ensures HasFrames(r)
  {
    if Active(a, Commercial) then
      var o := Own(a, f);
      if Closes(Commercial, f.command) then FinishActive(o, true, max)
      else if o.active.value.state.CommercialPayment? then o.(active := Some(MoveTo(o.active.value, CommercialPostlude, f)))
      else o
    else
      a.(pendingStart := if f.command.kind.CounterQuery? then Some(f) else None)
  }

  function OnStart(a: Assembly, f: Frame, max: nat): (r: Assembly)
    requires HasFrames(a)
    ensures HasFrames(r)
  {
    var first := if a.pendingStart.Some? then a.pendingStart.value else f;
    Own(Open(FinishActive(a, false, max), Commercial, first), f).(pendingStart := None)
  }

  function OnBoundary(a: Assembly, f: Frame, max: nat): (r: Assembly)
    requires HasFrames(a)
    ensures HasFrames(r)
  {
    (if Active(a, Managerial) then FinishActive(Own(a, f), true, max)
     else Open(FinishActive(a, false, max), Managerial, f)).(pendingStart := None)
  }

  function OnManagement(a: Assembly, f: Frame, max: nat): (r: Assembly)
    requires f.command.Management? && HasFrames(a)
    ensures HasFrames(r)
  {
    var o :=
      if a.active.None? then Report(Open(a, Managerial, f), MissingOpenBoundary, f)
      else if !Active(a, Managerial) then Open(FinishActive(a, false, max), Managerial, f)
      else a;
    var p := Own(o, f);
    var b := p.active.value;
    var q := p.(active := Some(b.(seenPrimaryTotal := b.seenPrimaryTotal || ShowsTotal(Account(p), f.command.line, f.frameId))));
    Charge(q, ChargeManagementLine(Account(p), f.command.line, b.seenPrimaryTotal, f.frameId))
  }

  /** The commercial builder that takes an item or a total, opened with a complaint if there is none. */
  function ForSale(a: Assembly, f: Frame, max: nat): (r: Assembly)
    requires HasFrames(a)
    ensures Active(r, Commercial) && HasFrames(r)
  {
    Own(if Active(a, Commercial) then a
        else Report(Open(FinishActive(a, false, max), Commercial, f), MissingCommercialStart, f), f)
  }

  function OnItem(a: Assembly, f: Frame, max: nat): (r: Assembly)
    requires f.command.Item? && HasFrames(a)
    ensures HasFrames(r)
  {
    var o := ForSale(a, f, max);
    Charge(o, ChargeItem(Account(o), f.command, f.frameId))
  }

  function OnTotal(a: Assembly, f: Frame, max: nat): (r: Assembly)
    requires f.command.Total? && HasFrames(a)
    ensures HasFrames(r)
  {
    var o := ForSale(a, f, max);
    var c := Charge(o, ChargeTotal(Account(o), f.command.cents, f.frameId));
    c.(active := Some(MoveTo(c.active.value, CommercialPayment, f)))
  }

  function OnText(a: Assembly, f: Frame): (r: Assembly)
    requires f.command.Text? && HasFrames(a)
    ensures HasFrames(r)
  {
    if Active(a, Commercial) then
      var o := Own(a, f);
      Charge(o, ChargeText(Account(o), f.command.text, f.frameId))
    else OnOther(a, f)
  }

  function OnOther(a: Assembly, f: Frame): (r: Assembly)
    requires HasFrames(a)
    ensures HasFrames(r)
  {
    if a.active.Some? && !f.command.Display? then Own(a, f) else a
  }

  function Process(a: Assembly, f: Frame, max: nat): (r: Assembly)
    requires HasFrames(a)
    ensures HasFrames(r)
  {
    if !IsRequestProfile(f) then a
    else
      match f.command
      case Control(_) => OnControl(a, f, max)
      case Start => OnStart(a, f, max)
      case Boundary => OnBoundary(a, f, max)
      case Management(_) => OnManagement(a, f, max)
      case Item(_, _, _, _) => OnItem(a, f, max)
      case Text(_) => OnText(a, f)
      case Total(_, _, _) => OnTotal(a, f, max)
      case Display => a
      case Unclassified => OnOther(a, f)
  }

  function Scan(frames: seq<Frame>, max: nat, limit: nat): (a: Assembly)
    ensures HasFrames(a)
  {
    if frames == [] then NewAssembly(limit)
    else
      var before := Scan(frames[..|frames| - 1], max, limit);
      Process(before, frames[|frames| - 1], max)
  }

  /** The documents of a whole request stream; a document still open at its end is incomplete. */
  function Assemble(frames: seq<Frame>, max: nat, limit: nat): Assembly {
    FinishActive(Scan(frames, max, limit), false, max)
  }
}
