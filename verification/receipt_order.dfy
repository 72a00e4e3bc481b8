/** When the frame ranges of receipts are ordered like the receipts themselves. The lemmas follow the list of frame
    lists that become documents: what one frame does to it, what growing keeps of its order, and which start
    command disturbs it. */
module ReceiptOrder {
  import opened Options
  import opened ReceiptModel
  import opened ReceiptInvariant

  // ---------------------------------------------------------------- the frame lists that become documents

  function FrameLists(documents: seq<Document>): (r: seq<seq<Frame>>)
    ensures |r| == |documents|
    ensures forall i | 0 <= i < |documents| :: r[i] == documents[i].frames
  {
    seq(|documents|, i requires 0 <= i < |documents| => documents[i].frames)
  }

  /** The finished documents' frames, and the active ones while there is room for one more document. */
  function Line(a: Assembly, max: nat): seq<seq<Frame>> {
    FrameLists(a.documents) + if a.active.Some? && |a.documents| < max then [a.active.value.frames] else []
  }

  /** Every list ends before the next ones begin. */
  predicate Separate(line: seq<seq<Frame>>) {
    && (forall i | 0 <= i < |line| :: line[i] != [])
    && (forall i, k | 0 <= i < k < |line| :: LastFrame(line[i]).frameId < line[k][0].frameId)
  }

  /** The list begins with a counter query that the start command after it took over. */
  predicate TookQuery(frames: seq<Frame>) {
    |frames| >= 2 && frames[0].command == Control(CounterQuery) && frames[1].command.Start?
  }

  /** Every list ends before the next ones begin, a query that was taken over set aside. */
  predicate Trailing(line: seq<seq<Frame>>) {
    && (forall i | 0 <= i < |line| :: line[i] != [])
    && (forall i, k | 0 <= i < k < |line| ::
          || LastFrame(line[i]).frameId < line[k][0].frameId
          || (TookQuery(line[k]) && LastFrame(line[i]).frameId < line[k][1].frameId))
  }

  /** All lists are non-empty and end in rising order, by id last at the latest. */
  predicate Ends(line: seq<seq<Frame>>, last: int) {
    && (forall i | 0 <= i < |line| :: line[i] != [] && LastFrame(line[i]).frameId <= last)
    && (forall i, k | 0 <= i < k < |line| :: LastFrame(line[i]).frameId < LastFrame(line[k]).frameId)
  }

  /** A start command that takes over a query older than the end of the last document before it, while that new
      document will still be kept. */
  predicate TakesOldQuery(a: Assembly, f: Frame, max: nat)
    requires HasFrames(a)
  {
    && IsRequestProfile(f) && f.command.Start?
    && a.pendingStart.Some?
    && var line := FrameLists(FinishActive(a, false, max).documents);
    && 0 < |line| < max
    && line[|line| - 1] != []
    && a.pendingStart.value.frameId < LastFrame(line[|line| - 1]).frameId
  }

  // ---------------------------------------------------------------- one frame

  function Extended(line: seq<seq<Frame>>, f: Frame): seq<seq<Frame>>
    requires line != []
  {
    line[..|line| - 1] + [line[|line| - 1] + [f]]
  }

  /** Finishing moves the active list to the documents or drops it, where it was not in line. */
  lemma FinishLine(a: Assembly, complete: bool, max: nat)
    requires HasFrames(a)
    ensures Line(FinishActive(a, complete, max), max) == Line(a, max)
  {
    hide FinishBuilder;
    if a.active.Some? {
      FinishCopies(a.active.value, |a.documents| + 1, complete);
    }
  }

  lemma OpenLine(a: Assembly, kind: Kind, f: Frame, max: nat)
    requires a.active.None?
    ensures Line(Open(a, kind, f), max) == Line(a, max) + if |a.documents| < max then [[f]] else []
  {
  }

  lemma OwnLine(a: Assembly, f: Frame, max: nat, last: int)
    requires Inv(a, last) && last < f.frameId && a.active.Some?
    ensures Line(Own(a, f), max) == Line(a, max) || (Line(a, max) != [] && Line(Own(a, f), max) == Extended(Line(a, max), f))
  {
    OwnKeeps(a, f, last);
    hide Inv, Own, AddFrame;
    OwnDocuments(a, f);
  }

  lemma OwnDocuments(a: Assembly, f: Frame)
    requires a.active.Some?
    ensures Own(a, f).documents == a.documents
  {
  }

  /** Steps that only change what an active document records, not what it owns. */
  lemma SameLine(a: Assembly, b: Assembly, max: nat)
    requires a.documents == b.documents && a.active.Some? == b.active.Some?
    requires a.active.Some? ==> a.active.value.frames == b.active.value.frames
    ensures Line(a, max) == Line(b, max)
  {
  }

  /** What a step does to the line of frame lists. */
  predicate Grows(line: seq<seq<Frame>>, f: Frame, next: seq<seq<Frame>>) {
    next == line || (line != [] && next == Extended(line, f)) || next == line + [[f]]
  }

  lemma ForSaleLine(a: Assembly, f: Frame, max: nat, last: int)
    requires Inv(a, last) && last < f.frameId
    ensures HasFrames(a) && Grows(Line(a, max), f, Line(ForSale(a, f, max), max))
  {
    InvHasFrames(a, last);
    if Active(a, Commercial) {
      OwnLine(a, f, max, last);
    } else {
      hide Inv, FinishActive, Own, Open, Report, Line;
      var done := FinishActive(a, false, max);
      FinishKeeps(a, false, max, last);
      FinishLine(a, false, max);
      OpenLine(done, Commercial, f, max);
      OwnOpened(done, Commercial, f, None);
      OwnOpened(done, Commercial, f, Some(MissingCommercialStart));
      ReportLine(Open(done, Commercial, f), MissingCommercialStart, f, max);
    }
  }

  lemma ReportLine(a: Assembly, code: IssueCode, f: Frame, max: nat)
    requires a.active.Some?
    ensures Line(Report(a, code, f), max) == Line(a, max)
  {
  }

  lemma ForLineLine(a: Assembly, f: Frame, max: nat, last: int)
    requires Inv(a, last) && last < f.frameId
    ensures HasFrames(a)
    ensures var b := ForLine(a, f, max); b.active.Some? && Grows(Line(a, max), f, Line(Own(b, f), max))
  {
    InvHasFrames(a, last);
    if Active(a, Managerial) {
      OwnLine(a, f, max, last);
    } else {
      hide Inv, FinishActive, Own, Open, Report, Line;
      FinishKeeps(a, false, max, last);
      FinishLine(a, false, max);
      OpenLine(FinishActive(a, false, max), Managerial, f, max);
      OwnOpened(FinishActive(a, false, max), Managerial, f, None);
      if a.active.None? {
        FinishNone(a, max);
        ReportLine(Open(a, Managerial, f), MissingOpenBoundary, f, max);
        OwnOpened(a, Managerial, f, Some(MissingOpenBoundary));
      }
    }
  }

  lemma FinishNone(a: Assembly, max: nat)
    requires a.active.None?
    ensures FinishActive(a, false, max) == a
  {
  }

  lemma ControlLine(a: Assembly, f: Frame, max: nat, last: int)
    requires Inv(a, last) && last < f.frameId && f.command.Control?
    ensures HasFrames(a) && Grows(Line(a, max), f, Line(OnControl(a, f, max), max))
  {
    InvHasFrames(a, last);
    if Active(a, Commercial) {
      OwnLine(a, f, max, last);
      OwnKeeps(a, f, last);
      var o := Own(a, f);
      InvHasFrames(o, f.frameId);
      FinishLine(o, true, max);
      hide Inv, Own, FinishActive, Line;
      if !Closes(Commercial, f.command) && o.active.value.state.CommercialPayment? {
        SameLine(o, o.(active := Some(MoveTo(o.active.value, CommercialPostlude, f))), max);
      }
    } else {
      SameLine(a, OnControl(a, f, max), max);
    }
  }

  lemma BoundaryLine(a: Assembly, f: Frame, max: nat, last: int)
    requires Inv(a, last) && last < f.frameId
    ensures HasFrames(a) && Grows(Line(a, max), f, Line(OnBoundary(a, f, max), max))
  {
    InvHasFrames(a, last);
    if Active(a, Managerial) {
      OwnLine(a, f, max, last);
      OwnKeeps(a, f, last);
      InvHasFrames(Own(a, f), f.frameId);
      FinishLine(Own(a, f), true, max);
      SameLine(FinishActive(Own(a, f), true, max), OnBoundary(a, f, max), max);
    } else {
      FinishKeeps(a, false, max, last);
      FinishLine(a, false, max);
      OpenLine(FinishActive(a, false, max), Managerial, f, max);
      SameLine(Open(FinishActive(a, false, max), Managerial, f), OnBoundary(a, f, max), max);
    }
  }

  lemma OtherLine(a: Assembly, f: Frame, max: nat, last: int)
    requires Inv(a, last) && last < f.frameId
    ensures HasFrames(a) && Grows(Line(a, max), f, Line(OnOther(a, f), max))
  {
    InvHasFrames(a, last);
    hide Inv, Own, Line;
    if a.active.Some? {
      OwnLine(a, f, max, last);
    }
  }

  lemma TextLine(a: Assembly, f: Frame, max: nat, last: int)
    requires Inv(a, last) && last < f.frameId && f.command.Text?
    ensures HasFrames(a) && Grows(Line(a, max), f, Line(OnText(a, f), max))
  {
    OtherLine(a, f, max, last);
    hide Inv, Own, Line, ChargeText;
    if Active(a, Commercial) {
      OwnFrame(a, f);
      SameLine(Own(a, f), OnText(a, f), max);
    }
  }

  lemma SaleLine(a: Assembly, f: Frame, max: nat, last: int)
    requires Inv(a, last) && last < f.frameId
    ensures HasFrames(a)
    ensures f.command.Item? ==> Grows(Line(a, max), f, Line(OnItem(a, f, max), max))
    ensures f.command.Total? ==> Grows(Line(a, max), f, Line(OnTotal(a, f, max), max))
  {
    ForSaleLine(a, f, max, last);
    hide Inv, ForSale, Line, ChargeItem, ChargeTotal, Grows;
    if f.command.Item? {
      SameLine(ForSale(a, f, max), OnItem(a, f, max), max);
    } else if f.command.Total? {
      SameLine(ForSale(a, f, max), OnTotal(a, f, max), max);
    }
  }

  lemma ManagementLineGrows(a: Assembly, f: Frame, max: nat, last: int)
    requires Inv(a, last) && last < f.frameId && f.command.Management?
    ensures HasFrames(a) && Grows(Line(a, max), f, Line(OnManagement(a, f, max), max))
  {
    ForLineLine(a, f, max, last);
    hide Inv, Own, Line, Open, Report, FinishActive, ChargeManagementLine, ShowsTotal, Grows;
    OwnFrame(ForLine(a, f, max), f);
    SameLine(Own(ForLine(a, f, max), f), OnManagement(a, f, max), max);
  }

  lemma OpenedStart(a: Assembly, first: Frame, f: Frame, max: nat)
    requires a.active.None?
    ensures Line(Own(Open(a, Commercial, first), f).(pendingStart := None), max) ==
            Line(a, max) + if |a.documents| < max then [if first.frameId == f.frameId then [first] else [first, f]] else []
  {
    hide NewBuilder;
    NewBuilderOk(Commercial, first);
    var b := AddFrame(NewBuilder(Commercial, first), f);
    assert b.frames == if first.frameId == f.frameId then [first] else [first, f];
  }

  lemma PendingIsOlder(a: Assembly, last: int)
    requires Inv(a, last)
    ensures a.pendingStart.Some? ==> a.pendingStart.value.frameId <= last
  {
  }

  lemma NoneInLine(a: Assembly, max: nat)
    requires a.active.None?
    ensures Line(a, max) == FrameLists(a.documents)
  {
  }

  /** A start opens a list with itself, or with the query it takes over, while there is room. */
  lemma StartLine(a: Assembly, f: Frame, max: nat, last: int)
    requires Inv(a, last) && last < f.frameId
    ensures HasFrames(a)
    ensures var line := Line(a, max);
            && line == FrameLists(FinishActive(a, false, max).documents)
            && Line(OnStart(a, f, max), max) ==
               if |line| >= max then line
               else if a.pendingStart.None? then line + [[f]]
               else line + [[a.pendingStart.value, f]]
  {
    hide Inv, FinishActive, Open, Own, Line;
    InvHasFrames(a, last);
    PendingIsOlder(a, last);
    FinishKeeps(a, false, max, last);
    FinishLine(a, false, max);
    var done := FinishActive(a, false, max);
    NoneInLine(done, max);
    OpenedStart(done, if a.pendingStart.Some? then a.pendingStart.value else f, f, max);
  }

  lemma ProcessLine(a: Assembly, f: Frame, max: nat, last: int)
    requires Inv(a, last) && last < f.frameId
    requires !(IsRequestProfile(f) && f.command.Start?)
    ensures HasFrames(a) && Grows(Line(a, max), f, Line(Process(a, f, max), max))
  {
    InvHasFrames(a, last);
    hide Inv, Line, OnControl, OnBoundary, OnManagement, OnItem, OnText, OnTotal, OnOther;
    if IsRequestProfile(f) {
      match f.command
      case Control(_) => ControlLine(a, f, max, last);
      case Boundary => BoundaryLine(a, f, max, last);
      case Management(_) => ManagementLineGrows(a, f, max, last);
      case Item(_, _, _, _) => SaleLine(a, f, max, last);
      case Text(_) => TextLine(a, f, max, last);
      case Total(_, _, _) => SaleLine(a, f, max, last);
      case Unclassified => OtherLine(a, f, max, last);
      case _ =>
    }
  }

  // ---------------------------------------------------------------- what growing does to the order

  lemma ExtendedEnds(line: seq<seq<Frame>>, f: Frame, last: int)
    requires Ends(line, last) && last < f.frameId && line != []
    ensures Ends(Extended(line, f), f.frameId)
  {
    var next, n := Extended(line, f), |line| - 1;
    assert next[n] == line[n] + [f] && LastFrame(next[n]) == f;
    assert forall i | 0 <= i < n :: next[i] == line[i];
  }

  /** Extending the last list moves no beginning and no end that another list follows. */
  lemma ExtendedKeeps(line: seq<seq<Frame>>, f: Frame, last: int)
    requires Ends(line, last) && line != []
    ensures var next := Extended(line, f);
            && |next| == |line|
            && (forall i | 0 <= i < |line| - 1 :: next[i] == line[i])
            && (forall k | 0 <= k < |line| ::
                  && next[k] != [] && next[k][0] == line[k][0]
                  && (TookQuery(line[k]) ==> TookQuery(next[k]) && next[k][1] == line[k][1]))
  {
    var next, n := Extended(line, f), |line| - 1;
    assert next[n] == line[n] + [f];
  }

  lemma ExtendedSeparate(line: seq<seq<Frame>>, f: Frame, last: int)
    requires Ends(line, last) && last < f.frameId && line != []
    ensures Ends(Extended(line, f), f.frameId)
    ensures Separate(Extended(line, f)) <==> Separate(line)
  {
    ExtendedEnds(line, f, last);
    ExtendedKeeps(line, f, last);
    var next := Extended(line, f);
    hide Extended, Ends, TookQuery;
    if !Separate(line) {
      var i, k :| 0 <= i < k < |line| && LastFrame(line[i]).frameId >= line[k][0].frameId;
      assert LastFrame(next[i]).frameId >= next[k][0].frameId;
    }
  }

  lemma ExtendedTrailing(line: seq<seq<Frame>>, f: Frame, last: int)
    requires Ends(line, last) && last < f.frameId && line != []
    ensures Ends(Extended(line, f), f.frameId)
    ensures Trailing(line) ==> Trailing(Extended(line, f))
  {
    ExtendedEnds(line, f, last);
    ExtendedKeeps(line, f, last);
    hide Extended, Ends, TookQuery;
  }

  lemma LastNonEmpty(line: seq<seq<Frame>>, last: int)
    requires Ends(line, last)
    ensures line != [] ==> line[|line| - 1] != []
  {
  }

  lemma AppendedEnds(line: seq<seq<Frame>>, frames: seq<Frame>, last: int)
    requires Ends(line, last) && frames != [] && last < LastFrame(frames).frameId
    ensures Ends(line + [frames], LastFrame(frames).frameId)
  {
    assert forall i | 0 <= i < |line| :: (line + [frames])[i] == line[i];
  }

  /** A list that begins after the last one ended, and so after all, may follow. */
  lemma AppendedFollows(line: seq<seq<Frame>>, frames: seq<Frame>, last: int)
    requires Ends(line, last) && frames != [] && Separate(line)
    requires line != [] ==> LastFrame(line[|line| - 1]).frameId < frames[0].frameId
    ensures Separate(line + [frames])
  {
    var next, n := line + [frames], |line|;
    forall i, k | 0 <= i < k <= n ensures LastFrame(next[i]).frameId < next[k][0].frameId {
      assert next[i] == line[i];
      if k < n {
        assert next[k] == line[k];
      } else {
        assert next[k] == frames && LastFrame(line[i]).frameId <= LastFrame(line[n - 1]).frameId;
      }
    }
  }

  /** What follows in a separate line left it separate and begins after its last list. */
  lemma AppendedWas(line: seq<seq<Frame>>, frames: seq<Frame>)
    requires Separate(line + [frames])
    ensures Separate(line)
    ensures line != [] ==> frames != [] && LastFrame(line[|line| - 1]).frameId < frames[0].frameId
  {
    var next, n := line + [frames], |line|;
    assert next[n] == frames && forall i | 0 <= i < n :: next[i] == line[i];
    if n > 0 {
      assert LastFrame(next[n - 1]).frameId < next[n][0].frameId;
    }
    forall i, k | 0 <= i < k < n ensures LastFrame(line[i]).frameId < line[k][0].frameId {
      assert LastFrame(next[i]).frameId < next[k][0].frameId;
    }
  }

  lemma AppendedSeparate(line: seq<seq<Frame>>, frames: seq<Frame>, last: int)
    requires Ends(line, last) && frames != [] && last < LastFrame(frames).frameId
    ensures line != [] ==> line[|line| - 1] != []
    ensures Ends(line + [frames], LastFrame(frames).frameId)
    ensures Separate(line + [frames]) <==>
            Separate(line) && (line != [] ==> LastFrame(line[|line| - 1]).frameId < frames[0].frameId)
  {
    hide Separate, Ends;
    LastNonEmpty(line, last);
    AppendedEnds(line, frames, last);
    if Separate(line + [frames]) {
      AppendedWas(line, frames);
    } else if Separate(line) && (line != [] ==> LastFrame(line[|line| - 1]).frameId < frames[0].frameId) {
      AppendedFollows(line, frames, last);
    }
  }

  lemma AppendedTrailing(line: seq<seq<Frame>>, frames: seq<Frame>, last: int)
    requires Ends(line, last) && frames != [] && last < LastFrame(frames).frameId
    requires last < frames[0].frameId || (TookQuery(frames) && last < frames[1].frameId)
    ensures Ends(line + [frames], LastFrame(frames).frameId)
    ensures Trailing(line) ==> Trailing(line + [frames])
  {
    AppendedEnds(line, frames, last);
    hide TookQuery;
    assert forall i | 0 <= i < |line| :: (line + [frames])[i] == line[i];
  }

  lemma GrowsOrder(line: seq<seq<Frame>>, f: Frame, next: seq<seq<Frame>>, last: int)
    requires Ends(line, last) && last < f.frameId && Grows(line, f, next)
    ensures Ends(next, f.frameId) && (Separate(next) <==> Separate(line)) && (Trailing(line) ==> Trailing(next))
  {
    hide Separate, Trailing, Extended;
    if next == line + [[f]] {
      AppendedSeparate(line, [f], last);
      AppendedTrailing(line, [f], last);
    } else if next != line {
      ExtendedSeparate(line, f, last);
      ExtendedTrailing(line, f, last);
    }
  }

  /** A remembered query is a counter query that no document owns. */
  predicate RemembersQuery(a: Assembly) {
    a.pendingStart.Some? ==> a.pendingStart.value.command == Control(CounterQuery)
  }

  lemma ProcessRemembers(a: Assembly, f: Frame, max: nat)
    requires HasFrames(a) && RemembersQuery(a)
    ensures RemembersQuery(Process(a, f, max))
  {
    hide FinishBuilder, NewBuilder, AddFrame, MoveTo, ChargeManagementLine, ChargeItem, ChargeTotal, ChargeText, ShowsTotal;
  }

  /** A remembered query is not the last frame of a list in line. */
  lemma PendingIsFresh(a: Assembly, max: nat, last: int)
    requires Inv(a, last)
    ensures var line := Line(a, max);
            a.pendingStart.Some? && line != [] ==>
              line[|line| - 1] != [] && LastFrame(line[|line| - 1]).frameId != a.pendingStart.value.frameId
  {
    hide Conserved, Sound, Apart;
    var line := Line(a, max);
    if a.pendingStart.Some? && line != [] {
      assert !Owns(line[|line| - 1], a.pendingStart.value.frameId);
    }
  }

  /** The list that a start opens, and what it does to the order of those before it. */
  function Begun(query: Option<Frame>, f: Frame): seq<Frame> {
    if query.Some? then [query.value, f] else [f]
  }

  lemma BegunOrder(line: seq<seq<Frame>>, query: Option<Frame>, f: Frame, last: int)
    requires Ends(line, last) && last < f.frameId && f.command.Start?
    requires query.Some? ==> query.value.command == Control(CounterQuery)
    requires query.Some? && line != [] ==>
               line[|line| - 1] != [] && LastFrame(line[|line| - 1]).frameId != query.value.frameId
    ensures var next := line + [Begun(query, f)];
            && Ends(next, f.frameId)
            && (Separate(next) <==>
                  Separate(line) &&
                  !(query.Some? && line != [] && query.value.frameId < LastFrame(line[|line| - 1]).frameId))
            && (Trailing(line) ==> Trailing(next))
  {
    hide Separate, Trailing;
    AppendedSeparate(line, Begun(query, f), last);
    AppendedTrailing(line, Begun(query, f), last);
  }

  lemma TakesFromLine(a: Assembly, f: Frame, max: nat, line: seq<seq<Frame>>)
    requires HasFrames(a) && IsRequestProfile(f) && f.command.Start?
    requires line == FrameLists(FinishActive(a, false, max).documents)
    ensures TakesOldQuery(a, f, max) <==>
            && |line| < max
            && a.pendingStart.Some? && line != [] && line[|line| - 1] != []
            && a.pendingStart.value.frameId < LastFrame(line[|line| - 1]).frameId
  {
    hide FinishActive, FrameLists;
  }

  lemma StartOrder(a: Assembly, f: Frame, max: nat, last: int)
    requires Inv(a, last) && last < f.frameId && RemembersQuery(a) && Ends(Line(a, max), last)
    requires IsRequestProfile(f) && f.command.Start?
    ensures HasFrames(a) && Ends(Line(OnStart(a, f, max), max), f.frameId)
    ensures Separate(Line(OnStart(a, f, max), max)) <==> Separate(Line(a, max)) && !TakesOldQuery(a, f, max)
    ensures Trailing(Line(a, max)) ==> Trailing(Line(OnStart(a, f, max), max))
  {
    hide Inv, Line, OnStart, Separate, Trailing, FinishActive, Ends, TakesOldQuery, FrameLists, HasFrames, IsRequestProfile;
    StartLine(a, f, max, last);
    PendingIsFresh(a, max, last);
    var line := Line(a, max);
    TakesFromLine(a, f, max, line);
    LastNonEmpty(line, last);
    if |line| < max {
      BegunOrder(line, a.pendingStart, f, last);
    } else {
      EndsLater(line, last, f.frameId);
    }
  }

  lemma EndsLater(line: seq<seq<Frame>>, last: int, later: int)
    requires Ends(line, last) && last <= later
    ensures Ends(line, later)
  {
  }

  /** Every frame keeps the order up to taken queries, and breaks the strict order exactly by taking an old one. */
  lemma ProcessOrder(a: Assembly, f: Frame, max: nat, last: int)
    requires Inv(a, last) && last < f.frameId && RemembersQuery(a) && Ends(Line(a, max), last)
    ensures HasFrames(a) && Ends(Line(Process(a, f, max), max), f.frameId)
    ensures Separate(Line(Process(a, f, max), max)) <==> Separate(Line(a, max)) && !TakesOldQuery(a, f, max)
    ensures Trailing(Line(a, max)) ==> Trailing(Line(Process(a, f, max), max))
  {
    InvHasFrames(a, last);
    if IsRequestProfile(f) && f.command.Start? {
      StartOrder(a, f, max, last);
    } else {
      hide Inv, Line, Ends, Separate, Trailing, Process;
      ProcessLine(a, f, max, last);
      GrowsOrder(Line(a, max), f, Line(Process(a, f, max), max), last);
    }
  }

  // ---------------------------------------------------------------- whole streams

  /** The line is in order; strictly so exactly if never is true. */
  ghost predicate InOrder(a: Assembly, max: nat, last: int, never: bool) {
    && Inv(a, last) && RemembersQuery(a)
    && Ends(Line(a, max), last)
    && Trailing(Line(a, max))
    && (Separate(Line(a, max)) <==> never)
  }

  lemma ProcessInOrder(a: Assembly, f: Frame, max: nat, last: int, never: bool)
    requires InOrder(a, max, last, never) && last < f.frameId
    ensures HasFrames(a)
    ensures InOrder(Process(a, f, max), max, f.frameId, never && !TakesOldQuery(a, f, max))
  {
    hide Inv, Process, Line, Ends, Separate, Trailing, TakesOldQuery, RemembersQuery;
    InvHasFrames(a, last);
    ProcessKeeps(a, f, max, last);
    ProcessRemembers(a, f, max);
    ProcessOrder(a, f, max, last);
  }

  lemma NewInOrder(max: nat, limit: nat)
    ensures InOrder(NewAssembly(limit), max, -1, true)
  {
    hide Inv, Line;
    NewAssemblyInv(limit);
    NewLine(max, limit);
  }

  lemma NewLine(max: nat, limit: nat)
    ensures Line(NewAssembly(limit), max) == []
  {
  }

  predicate NeverTakesOldQuery(frames: seq<Frame>, max: nat, limit: nat) {
    forall j | 0 <= j < |frames| :: !TakesOldQuery(Scan(frames[..j], max, limit), frames[j], max)
  }

  lemma NeverTakesNext(frames: seq<Frame>, max: nat, limit: nat)
    requires frames != []
    ensures var n := |frames| - 1;
            NeverTakesOldQuery(frames, max, limit) <==>
            NeverTakesOldQuery(frames[..n], max, limit) && !TakesOldQuery(Scan(frames[..n], max, limit), frames[n], max)
  {
    hide Scan, TakesOldQuery;
    var n := |frames| - 1;
    assert forall j | 0 <= j < n :: frames[..n][..j] == frames[..j] && frames[..n][j] == frames[j];
    if NeverTakesOldQuery(frames, max, limit) {
      forall j | 0 <= j < n ensures !TakesOldQuery(Scan(frames[..n][..j], max, limit), frames[..n][j], max) {
        assert !TakesOldQuery(Scan(frames[..j], max, limit), frames[j], max);
      }
    } else {
      var j :| 0 <= j < |frames| && TakesOldQuery(Scan(frames[..j], max, limit), frames[j], max);
      if j < n {
        assert TakesOldQuery(Scan(frames[..n][..j], max, limit), frames[..n][j], max);
      }
    }
  }

  lemma IdsRiseNext(frames: seq<Frame>)
    requires IdsRise(frames) && frames != []
    ensures IdsRise(frames[..|frames| - 1]) && LastId(frames[..|frames| - 1]) < frames[|frames| - 1].frameId
  {
  }

  lemma {:induction false} ScanOrder(frames: seq<Frame>, max: nat, limit: nat)
    requires IdsRise(frames)
    ensures InOrder(Scan(frames, max, limit), max, LastId(frames), NeverTakesOldQuery(frames, max, limit))
  {
    hide InOrder, Process, TakesOldQuery, NeverTakesOldQuery, IdsRise;
    if frames == [] {
      NewInOrder(max, limit);
      assert NeverTakesOldQuery(frames, max, limit) by { NothingTaken(max, limit); }
    } else {
      var n := |frames| - 1;
      IdsRiseNext(frames);
      NeverTakesNext(frames, max, limit);
      ScanOrder(frames[..n], max, limit);
      ProcessInOrder(Scan(frames[..n], max, limit), frames[n], max, LastId(frames[..n]), NeverTakesOldQuery(frames[..n], max, limit));
    }
  }

  lemma NothingTaken(max: nat, limit: nat)
    ensures NeverTakesOldQuery([], max, limit)
  {
  }

  lemma AssembledLine(frames: seq<Frame>, max: nat, limit: nat)
    requires IdsRise(frames)
    ensures Line(Scan(frames, max, limit), max) == FrameLists(Assemble(frames, max, limit).documents)
  {
    AssembleKeeps(frames, max, limit);
    FinishLine(Scan(frames, max, limit), false, max);
  }

  /** A document begins after all earlier ones have ended, unless it begins with a counter query that its start
      command took over; then that start comes after all earlier ones have ended. */
  lemma DocumentsTrail(frames: seq<Frame>, max: nat, limit: nat, i: nat, k: nat)
    requires IdsRise(frames) && i < k < |Assemble(frames, max, limit).documents|
    ensures var ds := Assemble(frames, max, limit).documents;
            && ds[i].frames != [] && ds[k].frames != []
            && (|| LastFrame(ds[i].frames).frameId < ds[k].frames[0].frameId
                || (TookQuery(ds[k].frames) && LastFrame(ds[i].frames).frameId < ds[k].frames[1].frameId))
  {
    hide Scan, Assemble, Line, Inv, RemembersQuery, NeverTakesOldQuery;
    ScanOrder(frames, max, limit);
    AssembledLine(frames, max, limit);
  }

  /** The ranges of all documents are disjoint and in document order if and only if no start command takes over a
      counter query older than the end of the last document before it. */
  lemma RangesOrderedExactly(frames: seq<Frame>, max: nat, limit: nat)
    requires IdsRise(frames)
    ensures var ds := Assemble(frames, max, limit).documents;
            && (forall i | 0 <= i < |ds| :: ds[i].frames != [])
            && ((forall i, k | 0 <= i < k < |ds| :: LastFrame(ds[i].frames).frameId < ds[k].frames[0].frameId)
                <==> NeverTakesOldQuery(frames, max, limit))
  {
    hide Scan, Assemble, Line, Inv, RemembersQuery, NeverTakesOldQuery;
    ScanOrder(frames, max, limit);
    AssembledLine(frames, max, limit);
    var ds := Assemble(frames, max, limit).documents;
    if !Separate(FrameLists(ds)) {
      var i, k :| 0 <= i < k < |ds| && LastFrame(FrameLists(ds)[i]).frameId >= FrameLists(ds)[k][0].frameId;
      assert LastFrame(ds[i].frames).frameId >= ds[k].frames[0].frameId;
    }
  }
}
