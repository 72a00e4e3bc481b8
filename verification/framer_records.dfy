/** The bounded event and issue lists of a framer, related to its complete ledger. */
module FramerRecords {
  import opened RchBytes
  import opened FramingSpec
  import opened FramingEvents

  datatype FramingIssue = FramingIssue(code: IssueCode, streamOffset: nat, raw: seq<byte>, spanLength: nat)

  datatype FramingResult = FramingResult(
    events: seq<StreamEvent>,
    issues: seq<FramingIssue>,
    bytesSeen: nat,
    totalFrameCount: nat,
    totalAckCount: nat,
    eventsTruncated: bool,
    omittedIssueCount: nat)

  function Prefix<T>(s: seq<T>, n: nat): (r: seq<T>)
    ensures |r| <= n && r <= s
    ensures |s| <= n ==> r == s
    ensures n <= |s| ==> |r| == n
  {
    if |s| <= n then s else s[..n]
  }

  // ---------------------------------------------------------------- retained events

  /** events holds the first maxEvents events recorded after event number cleared. */
  predicate EventsOk(lim: Limits, ledger: seq<Entry>, cleared: nat, events: seq<StreamEvent>, truncated: bool) {
    var all := Numbered(ledger);
    && cleared <= |all|
    && events == Prefix(all[cleared..], lim.maxEvents)
    && (truncated <==> |all| - cleared > lim.maxEvents)
  }

  lemma EventRetained(lim: Limits, ledger: seq<Entry>, cleared: nat, events: seq<StreamEvent>, truncated: bool, e: Entry)
    requires EventsOk(lim, ledger, cleared, events, truncated) && |events| < lim.maxEvents && !e.Gap?
    ensures |Numbered(ledger + [e])| == |Numbered(ledger)| + 1
    ensures EventsOk(lim, ledger + [e], cleared, events + [Numbered(ledger + [e])[|Numbered(ledger)|]], truncated)
  {
    hide ParseFrame;
    NumberedAppend(ledger, e);
    var all := Numbered(ledger);
    assert Numbered(ledger + [e])[cleared..] == all[cleared..] + [Numbered(ledger + [e])[|all|]];
  }

  lemma EventOmitted(lim: Limits, ledger: seq<Entry>, cleared: nat, events: seq<StreamEvent>, truncated: bool, e: Entry)
    requires EventsOk(lim, ledger, cleared, events, truncated) && lim.maxEvents <= |events| && !e.Gap?
    ensures EventsOk(lim, ledger + [e], cleared, events, true)
  {
    hide ParseFrame;
    NumberedAppend(ledger, e);
  }

  /** The entries of a run of n acknowledgements. */
  function AckRun(offset: nat, n: nat): (r: seq<Entry>)
    ensures |r| == n
  {
    if n == 0 then [] else AckRun(offset, n - 1) + [AckAt(offset + n - 1)]
  }

  /** A run of acknowledgements arriving when the event list is full changes the totals only. */
  lemma {:induction false} AckRunOmitted(lim: Limits, ledger: seq<Entry>, cleared: nat, events: seq<StreamEvent>,
                                         truncated: bool, offset: nat, n: nat)
    requires EventsOk(lim, ledger, cleared, events, truncated) && lim.maxEvents <= |events|
    ensures EventsOk(lim, ledger + AckRun(offset, n), cleared, events, truncated || 0 < n)
    ensures FrameCount(ledger + AckRun(offset, n)) == FrameCount(ledger)
    ensures AckCount(ledger + AckRun(offset, n)) == AckCount(ledger) + n
    decreases n
  {
    if n == 0 {
      assert ledger + [] == ledger;
    } else {
      hide EventsOk, Numbered, FrameCount, AckCount;
      var before := ledger + AckRun(offset, n - 1);
      assert ledger + AckRun(offset, n) == before + [AckAt(offset + n - 1)];
      AckRunOmitted(lim, ledger, cleared, events, truncated, offset, n - 1);
      NumberedAppend(before, AckAt(offset + n - 1));
      EventOmitted(lim, before, cleared, events, truncated || 0 < n - 1, AckAt(offset + n - 1));
    }
  }

  lemma {:induction false} AckRunTiles(ledger: seq<Entry>, offset: nat, n: nat)
    requires Tiles(ledger, 0, offset)
    ensures Tiles(ledger + AckRun(offset, n), 0, offset + n)
    decreases n
  {
    if n == 0 {
      assert ledger + [] == ledger;
    } else {
      AckRunTiles(ledger, offset, n - 1);
      assert ledger + AckRun(offset, n) == ledger + AckRun(offset, n - 1) + [AckAt(offset + n - 1)];
      TilesAppend(ledger + AckRun(offset, n - 1), 0, offset + n - 1, AckAt(offset + n - 1));
    }
  }

  /** Issues that concern no bytes leave the diagnoses as they are. */
  lemma DiagnosedSame(ledger: seq<Entry>, mark: nat, before: seq<FramingIssue>, after: seq<FramingIssue>)
    requires Diagnosed(ledger, mark, before) && Reports(after) == Reports(before)
    ensures Diagnosed(ledger, mark, after)
  {
  }

  lemma AckDiagnosed(ledger: seq<Entry>, mark: nat, diagnosed: seq<FramingIssue>, offset: nat)
    requires Diagnosed(ledger, mark, diagnosed)
    ensures Diagnosed(ledger + [AckAt(offset)], mark, diagnosed)
  {
    hide Reports, Diagnoses;
    assert diagnosed + [] == diagnosed;
    DiagnosedAppend(ledger, mark, diagnosed, AckAt(offset), []);
  }

  lemma {:induction false} AckRunDiagnosed(ledger: seq<Entry>, mark: nat, diagnosed: seq<FramingIssue>, offset: nat, n: nat)
    requires Diagnosed(ledger, mark, diagnosed)
    ensures Diagnosed(ledger + AckRun(offset, n), mark, diagnosed)
    decreases n
  {
    if n == 0 {
      assert ledger + [] == ledger;
    } else {
      hide Reports, Diagnoses;
      AckRunDiagnosed(ledger, mark, diagnosed, offset, n - 1);
      assert ledger + AckRun(offset, n) == ledger + AckRun(offset, n - 1) + [AckAt(offset + n - 1)];
      AckDiagnosed(ledger + AckRun(offset, n - 1), mark, diagnosed, offset + n - 1);
    }
  }

  lemma AckDrains(m: nat, c: Core)
    requires c.pending != [] && c.pending[0] == ACK
    ensures Drain(m, c) == Drain(m, Core(c.ledger + [AckAt(c.offset)], c.offset + 1, c.pending[1..]))
  {
    assert NextEntry(m, c) == AckAt(c.offset);
  }

  /** Draining one acknowledgement after the other consumes the run at once. */
  lemma {:induction false} AckRunDrains(m: nat, c: Core, n: nat)
    requires n <= |c.pending| && forall i | 0 <= i < n :: c.pending[i] == ACK
    ensures Drain(m, c) == Drain(m, Core(c.ledger + AckRun(c.offset, n), c.offset + n, c.pending[n..]))
    decreases n
  {
    hide Drain;
    if n == 0 {
      assert c.ledger + [] == c.ledger && c.pending[0..] == c.pending;
    } else {
      AckRunDrains(m, c, n - 1);
      var d := Core(c.ledger + AckRun(c.offset, n - 1), c.offset + n - 1, c.pending[n - 1..]);
      assert d.pending[0] == ACK;
      assert d.ledger + [AckAt(d.offset)] == c.ledger + AckRun(c.offset, n);
      assert d.pending[1..] == c.pending[n..];
      AckDrains(m, d);
    }
  }

  lemma GapRecorded(lim: Limits, ledger: seq<Entry>, cleared: nat, events: seq<StreamEvent>, truncated: bool, e: Entry)
    requires EventsOk(lim, ledger, cleared, events, truncated) && e.Gap?
    ensures EventsOk(lim, ledger + [e], cleared, events, truncated)
  {
    NumberedAppend(ledger, e);
  }

  /** As the ledger grows, retained events are only ever added. */
  lemma EventsGrow(lim: Limits, l0: seq<Entry>, l1: seq<Entry>, cleared: nat,
                   events0: seq<StreamEvent>, events1: seq<StreamEvent>, truncated0: bool, truncated1: bool)
    requires l0 <= l1
    requires EventsOk(lim, l0, cleared, events0, truncated0) && EventsOk(lim, l1, cleared, events1, truncated1)
    ensures events0 <= events1
  {
    NumberedPrefix(l0, l1);
    var all0, all1 := Numbered(l0)[cleared..], Numbered(l1)[cleared..];
    assert all0 == all1[..|all0|];
  }

  // ---------------------------------------------------------------- diagnostics

  /** The diagnostic an entry calls for: every rejected range, and every frame whose BCC does not match. */
  function Diagnosis(e: Entry): seq<Entry> {
    match e
    case AckAt(_) => []
    case FrameAt(offset, raw) =>
      if ParseFrame(0, 0, offset, raw).bccValid then [] else [Gap(offset, InvalidBcc, |raw|)]
    case Gap(_, _, _) => [e]
  }

  function Diagnoses(ledger: seq<Entry>): seq<Entry> {
    if ledger == [] then []
    else Diagnoses(ledger[..|ledger| - 1]) + Diagnosis(ledger[|ledger| - 1])
  }

  lemma DiagnosesAppend(ledger: seq<Entry>, mark: nat, e: Entry)
    requires mark <= |ledger|
    ensures Diagnoses((ledger + [e])[mark..]) == Diagnoses(ledger[mark..]) + Diagnosis(e)
  {
    assert (ledger + [e])[mark..] == ledger[mark..] + [e];
    assert (ledger[mark..] + [e])[..|ledger| - mark] == ledger[mark..];
  }

  /** Issues as diagnoses; the notice that the event list is full concerns no bytes. */
  function Reports(issues: seq<FramingIssue>): seq<Entry> {
    if issues == [] then []
    else
      var last := issues[|issues| - 1];
      Reports(issues[..|issues| - 1]) +
        if last.code.EventLimitExceeded? then [] else [Gap(last.streamOffset, last.code, last.spanLength)]
  }

  lemma ReportsAppend(issues: seq<FramingIssue>, issue: FramingIssue)
    ensures Reports(issues + [issue]) == Reports(issues) +
              if issue.code.EventLimitExceeded? then []
              else [Gap(issue.streamOffset, issue.code, issue.spanLength)]
  {
    assert (issues + [issue])[..|issues|] == issues;
  }

  function LimitSummary(bytesSeen: nat): FramingIssue {
    FramingIssue(IssueLimitExceeded, bytesSeen, [], 0)
  }

  /** An issue shows the first bytes of its range, up to the configured number. */
  predicate PreviewOk(lim: Limits, issue: FramingIssue) {
    |issue.raw| == if issue.spanLength <= lim.maxIssueRawBytes then issue.spanLength else lim.maxIssueRawBytes
  }

  /** diagnosed lists every issue raised since history was last cleared; issues keeps the first maxIssues
      of them, and after finish its last slot announces the omissions. */
  predicate IssuesOk(lim: Limits, diagnosed: seq<FramingIssue>, issues: seq<FramingIssue>, omitted: nat,
                     finished: bool, bytesSeen: nat)
  {
    var kept := Prefix(diagnosed, lim.maxIssues);
    && 0 < lim.maxIssues
    && (forall i | 0 <= i < |diagnosed| :: PreviewOk(lim, diagnosed[i]))
    && omitted == |diagnosed| - |kept|
    && issues == if finished && 0 < omitted then kept[..|kept| - 1] + [LimitSummary(bytesSeen)] else kept
  }

  /** The notice that the event list is full is raised once, when the first event is omitted. */
  predicate Noticed(diagnosed: seq<FramingIssue>, truncated: bool) {
    |diagnosed| == |Reports(diagnosed)| + if truncated then 1 else 0
  }

  /** Every rejected range and bad BCC of the ledger since the mark has been diagnosed, in order. */
  predicate Diagnosed(ledger: seq<Entry>, mark: nat, diagnosed: seq<FramingIssue>) {
    mark <= |ledger| && Reports(diagnosed) == Diagnoses(ledger[mark..])
  }

  lemma DiagnosedAppend(ledger: seq<Entry>, mark: nat, diagnosed: seq<FramingIssue>, e: Entry, more: seq<FramingIssue>)
    requires Diagnosed(ledger, mark, diagnosed)
    requires Reports(diagnosed + more) == Reports(diagnosed) + Diagnosis(e)
    ensures Diagnosed(ledger + [e], mark, diagnosed + more)
  {
    hide Diagnosis, Reports, Diagnoses;
    DiagnosesAppend(ledger, mark, e);
  }

  /** What a finished framer that omitted issues still reports: the first ones, and last a summary at the end of the
      stream. */
  predicate Summarised(issues: seq<FramingIssue>, omitted: nat, bytesSeen: nat, diagnoses: seq<Entry>) {
    0 < omitted ==>
      && issues != []
      && Reports(issues[..|issues| - 1]) <= diagnoses
      && var last := issues[|issues| - 1];
      last.code.IssueLimitExceeded? && last.streamOffset == bytesSeen && last.raw == [] && last.spanLength == 0
  }

  lemma {:induction false} ReportsPrefix(shorter: seq<FramingIssue>, longer: seq<FramingIssue>)
    requires shorter <= longer
    ensures Reports(shorter) <= Reports(longer)
    decreases |longer|
  {
    if |shorter| < |longer| {
      ReportsPrefix(shorter, longer[..|longer| - 1]);
    } else {
      assert shorter == longer;
    }
  }

  lemma SummaryLast(lim: Limits, diagnosed: seq<FramingIssue>, issues: seq<FramingIssue>, omitted: nat, bytesSeen: nat)
    requires IssuesOk(lim, diagnosed, issues, omitted, true, bytesSeen)
    ensures Summarised(issues, omitted, bytesSeen, Reports(diagnosed))
    ensures forall i | 0 <= i < |issues| :: PreviewOk(lim, issues[i])
  {
    hide Reports;
    if 0 < omitted {
      assert issues[..|issues| - 1] <= diagnosed;
      ReportsPrefix(issues[..|issues| - 1], diagnosed);
    }
  }
}
