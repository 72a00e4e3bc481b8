/** Ordinal correlation of request and response frames, and the response counters that number receipts. */
module ReceiptCorrelation {
  import opened Options
  import opened Decimals
  import opened ReceiptModel
  import opened ReceiptInvariant

  /** counter holds the digits of a payload that has the shape of a counter answer. */
  datatype ResponseFrame = ResponseFrame(
    frameId: nat,
    streamOffset: nat,
    bccValid: bool,
    address: string,
    frameClass: char,
    sequence: string,
    counter: Option<string>)

  predicate IsResponseProfile(f: ResponseFrame) {
    f.bccValid && f.address == "01" && f.frameClass == 'N'
  }

  datatype Correlation = Correlation(
    requestFrameId: nat,
    ackEventId: Option<nat>,
    responseFrameId: Option<nat>,
    expected: Option<string>,
    observed: Option<string>,
    matches: Option<bool>)

  function ExpectedResponseSequence(request: string): Option<string> {
    if |request| == 1 && IsDigit(request[0]) then Some([Digit((DigitValue(request[0]) + 8) % 10)]) else None
  }

  /** Position index of the request frames against the same position of the other two lists. */
  function CorrelationAt(requests: seq<Frame>, responses: seq<ResponseFrame>, acks: seq<nat>, index: nat): Correlation
    requires index < |requests|
  {
    var response := if index < |responses| then Some(responses[index]) else None;
    var expected := ExpectedResponseSequence(requests[index].sequence);
    var observed := if response.Some? then Some(response.value.sequence) else None;
    Correlation(
      requests[index].frameId,
      if index < |acks| then Some(acks[index]) else None,
      if response.Some? then Some(response.value.frameId) else None,
      expected,
      observed,
      if expected.Some? && observed.Some? then Some(expected == observed) else None)
  }

  function Correlate(requests: seq<Frame>, responses: seq<ResponseFrame>, acks: seq<nat>): (r: seq<Correlation>)
    ensures |r| == |requests|
  {
    seq(|requests|, i requires 0 <= i < |requests| => CorrelationAt(requests, responses, acks, i))
  }

  datatype CorrelationIssue =
    | MissingAck(requestFrameId: nat)
    | MissingResponse(requestFrameId: nat)
    | SequenceMismatch(responseFrameId: nat)
    | UnmatchedResponse(responseFrameId: nat)
    | UnmatchedAck(ackEventId: nat)

  function IssuesOf(c: Correlation): seq<CorrelationIssue> {
    (if c.ackEventId.None? then [MissingAck(c.requestFrameId)] else [])
    + if c.responseFrameId.None? then [MissingResponse(c.requestFrameId)]
      else if c.matches == Some(false) then [SequenceMismatch(c.responseFrameId.value)]
      else []
  }

  function PairIssues(correlations: seq<Correlation>): seq<CorrelationIssue> {
    if correlations == [] then []
    else PairIssues(correlations[..|correlations| - 1]) + IssuesOf(correlations[|correlations| - 1])
  }

  function UnmatchedResponses(responses: seq<ResponseFrame>): seq<CorrelationIssue> {
    seq(|responses|, i requires 0 <= i < |responses| => UnmatchedResponse(responses[i].frameId))
  }

  function UnmatchedAcks(acks: seq<nat>): seq<CorrelationIssue> {
    seq(|acks|, i requires 0 <= i < |acks| => UnmatchedAck(acks[i]))
  }

  function From<T>(s: seq<T>, n: nat): seq<T> {
    if n <= |s| then s[n..] else []
  }

  /** Every disagreement between the three lists, in the order of their positions. */
  function AllIssues(requests: seq<Frame>, responses: seq<ResponseFrame>, acks: seq<nat>): seq<CorrelationIssue> {
    PairIssues(Correlate(requests, responses, acks))
    + UnmatchedResponses(From(responses, |requests|))
    + UnmatchedAcks(From(acks, |requests|))
  }

  function FirstOf<T>(s: seq<T>, n: nat): seq<T> {
    if n <= |s| then s[..n] else s
  }

  lemma FirstOfAppend<T>(s: seq<T>, x: T, n: nat)
    ensures FirstOf(s + [x], n) == if |FirstOf(s, n)| < n then FirstOf(s, n) + [x] else FirstOf(s, n)
  {
  }

  method CorrelateDirections(requests: seq<Frame>, responses: seq<ResponseFrame>, acks: seq<nat>, maxIssues: nat)
    returns (correlations: seq<Correlation>, issues: seq<CorrelationIssue>)
    ensures correlations == Correlate(requests, responses, acks)
    ensures issues == FirstOf(AllIssues(requests, responses, acks), maxIssues)
  {
    hide CorrelationAt, FirstOf, IssuesOf;
    correlations, issues := [], [];
    ghost var all: seq<CorrelationIssue> := [];
    FirstOfNone<CorrelationIssue>(maxIssues);
    for index := 0 to |requests|
      invariant correlations == Correlate(requests, responses, acks)[..index]
      invariant all == PairIssues(correlations) && issues == FirstOf(all, maxIssues)
    {
      var c := CorrelationAt(requests, responses, acks, index);
      correlations := correlations + [c];
      assert correlations[..index] == Correlate(requests, responses, acks)[..index];
      issues := AddIssues(issues, IssuesOf(c), maxIssues, all);
      all := all + IssuesOf(c);
    }
    assert correlations == Correlate(requests, responses, acks);
    issues := AddIssues(issues, UnmatchedResponses(From(responses, |requests|)), maxIssues, all);
    all := all + UnmatchedResponses(From(responses, |requests|));
    issues := AddIssues(issues, UnmatchedAcks(From(acks, |requests|)), maxIssues, all);
  }

  lemma FirstOfNone<T>(n: nat)
    ensures FirstOf<T>([], n) == []
  {
  }

  /** Adds issues one by one while there is room. */
  method AddIssues(issues: seq<CorrelationIssue>, more: seq<CorrelationIssue>, maxIssues: nat, ghost all: seq<CorrelationIssue>)
    returns (r: seq<CorrelationIssue>)
    requires issues == FirstOf(all, maxIssues)
    ensures r == FirstOf(all + more, maxIssues)
  {
    hide FirstOf;
    r := issues;
    assert all + more[..0] == all;
    for i := 0 to |more|
      invariant r == FirstOf(all + more[..i], maxIssues)
    {
      FirstOfAppend(all + more[..i], more[i], maxIssues);
      assert all + more[..i + 1] == all + more[..i] + [more[i]];
      if |r| < maxIssues {
        r := r + [more[i]];
      }
    }
    assert more[..|more|] == more;
  }

  // ---------------------------------------------------------------- counters

  function CorrelationFor(correlations: seq<Correlation>, requestFrameId: nat): Option<Correlation> {
    if correlations == [] then None
    else if correlations[|correlations| - 1].requestFrameId == requestFrameId then Some(correlations[|correlations| - 1])
    else CorrelationFor(correlations[..|correlations| - 1], requestFrameId)
  }

  function ResponseById(responses: seq<ResponseFrame>, frameId: nat): Option<ResponseFrame> {
    if responses == [] then None
    else if responses[|responses| - 1].frameId == frameId then Some(responses[|responses| - 1])
    else ResponseById(responses[..|responses| - 1], frameId)
  }

  /** The counter answer that the ordinal correlation gives to a request frame. */
  function Answer(f: Frame, correlations: seq<Correlation>, responses: seq<ResponseFrame>): (answer: Option<ResponseFrame>)
    ensures answer.Some? ==> answer.value.counter.Some?
  {
    var c := CorrelationFor(correlations, f.frameId);
    if c.None? || c.value.responseFrameId.None? || c.value.matches != Some(true) then None
    else
      var r := ResponseById(responses, c.value.responseFrameId.value);
      if r.None? || !IsResponseProfile(r.value) || r.value.counter.None? then None else r
  }

  predicate IsPayment(f: Frame) {
    IsRequestProfile(f) && f.command.Total? && f.command.wholePayload
  }

  predicate IsQuery(f: Frame) {
    IsRequestProfile(f) && f.command == Control(CounterQuery)
  }

  predicate PaymentSeen(frames: seq<Frame>) {
    exists i :: 0 <= i < |frames| && IsPayment(frames[i])
  }

  /** The answer to the last counter query after a payment that has one. */
  function Candidate(frames: seq<Frame>, correlations: seq<Correlation>, responses: seq<ResponseFrame>): (answer: Option<ResponseFrame>)
    ensures answer.Some? ==> answer.value.counter.Some?
  {
    if frames == [] then None
    else
      var n := |frames| - 1;
      if IsQuery(frames[n]) && PaymentSeen(frames[..n]) && Answer(frames[n], correlations, responses).Some? then
        Answer(frames[n], correlations, responses)
      else Candidate(frames[..n], correlations, responses)
  }

  const COUNTER_FIELDS: nat := 4

  datatype Attached = Attached(document: Document, budget: Budget)

  function Attach(d: Document, correlations: seq<Correlation>, responses: seq<ResponseFrame>, b: Budget): Attached {
    if !d.kind.Commercial? || !d.complete then Attached(d, b)
    else
      var r := Candidate(d.frames, correlations, responses);
      if r.None? then Attached(d, b)
      else if !Grants(b, COUNTER_FIELDS) then Attached(d, Reserve(b, COUNTER_FIELDS, r.value.frameId))
      else
        Attached(
          d.(documentNumber := Some(r.value.counter.value),
             numberSource := Some(r.value.frameId),
             footer := d.footer + ["", "DOCUMENTO N. (solo suffisso) " + r.value.counter.value]),
          Reserve(b, COUNTER_FIELDS, r.value.frameId))
  }

  datatype AllAttached = AllAttached(documents: seq<Document>, budget: Budget)

  function AttachAll(documents: seq<Document>, correlations: seq<Correlation>, responses: seq<ResponseFrame>, b: Budget): (r: AllAttached)
    ensures |r.documents| == |documents|
  {
    if documents == [] then AllAttached([], b)
    else
      var n := |documents| - 1;
      var before := AttachAll(documents[..n], correlations, responses, b);
      var a := Attach(documents[n], correlations, responses, before.budget);
      AllAttached(before.documents + [a.document], a.budget)
  }

  function NumberedCount(documents: seq<Document>): nat {
    if documents == [] then 0
    else NumberedCount(documents[..|documents| - 1]) + if documents[|documents| - 1].numberSource.Some? then 1 else 0
  }

  // ---------------------------------------------------------------- what the counters guarantee

  predicate ResponsesNumbered(responses: seq<ResponseFrame>) {
    forall i, k | 0 <= i < k < |responses| :: responses[i].frameId < responses[k].frameId
  }

  lemma {:induction false} CorrelationForIs(correlations: seq<Correlation>, id: nat)
    ensures CorrelationFor(correlations, id).Some? ==>
              exists i :: 0 <= i < |correlations| && correlations[i] == CorrelationFor(correlations, id).value
                          && correlations[i].requestFrameId == id
  {
    if correlations != [] && correlations[|correlations| - 1].requestFrameId != id {
      CorrelationForIs(correlations[..|correlations| - 1], id);
    }
  }

  lemma {:induction false} ResponseByIdIs(responses: seq<ResponseFrame>, id: nat)
    ensures ResponseById(responses, id).Some? ==> ResponseById(responses, id).value.frameId == id
  {
    if responses != [] && responses[|responses| - 1].frameId != id {
      ResponseByIdIs(responses[..|responses| - 1], id);
    }
  }

  /** Ordinal correlation answers different requests with different responses. */
  lemma AnswersDiffer(requests: seq<Frame>, responses: seq<ResponseFrame>, acks: seq<nat>, f: Frame, g: Frame)
    requires ResponsesNumbered(responses)
    requires var cs := Correlate(requests, responses, acks);
             && Answer(f, cs, responses).Some? && Answer(g, cs, responses).Some?
             && Answer(f, cs, responses).value.frameId == Answer(g, cs, responses).value.frameId
    ensures f.frameId == g.frameId
  {
    var cs := Correlate(requests, responses, acks);
    CorrelationForIs(cs, f.frameId);
    CorrelationForIs(cs, g.frameId);
    var c, d := CorrelationFor(cs, f.frameId).value, CorrelationFor(cs, g.frameId).value;
    ResponseByIdIs(responses, c.responseFrameId.value);
    ResponseByIdIs(responses, d.responseFrameId.value);
    assert c.responseFrameId == d.responseFrameId;
  }

  /** frames[query] is an answered counter query after the payment frames[payment]. */
  predicate Answered(frames: seq<Frame>, correlations: seq<Correlation>, responses: seq<ResponseFrame>, payment: nat, query: nat) {
    && payment < query < |frames| && IsPayment(frames[payment]) && IsQuery(frames[query])
    && Answer(frames[query], correlations, responses).Some?
  }

  /** A candidate answers a counter query of the document that comes after one of its payments, and no later query of
      the document has an answer. */
  lemma {:induction false} CandidateIsAnswer(frames: seq<Frame>, correlations: seq<Correlation>, responses: seq<ResponseFrame>)
    returns (payment: nat, query: nat)
    requires Candidate(frames, correlations, responses).Some?
    ensures Answered(frames, correlations, responses, payment, query)
    ensures Candidate(frames, correlations, responses) == Answer(frames[query], correlations, responses)
    ensures forall j | query < j < |frames| && IsQuery(frames[j]) :: Answer(frames[j], correlations, responses).None?
  {
    hide Answer, IsQuery, IsPayment;
    var n := |frames| - 1;
    if IsQuery(frames[n]) && PaymentSeen(frames[..n]) && Answer(frames[n], correlations, responses).Some? {
      payment :| 0 <= payment < n && IsPayment(frames[..n][payment]);
      query := n;
    } else {
      payment, query := CandidateIsAnswer(frames[..n], correlations, responses);
      assert frames[..n][payment] == frames[payment];
    }
  }

  /** Where there is an answered query after a payment there is a candidate. */
  lemma {:induction false} CandidateExists(frames: seq<Frame>, correlations: seq<Correlation>, responses: seq<ResponseFrame>,
                                           payment: nat, query: nat)
    requires Answered(frames, correlations, responses, payment, query)
    ensures Candidate(frames, correlations, responses).Some?
    decreases |frames|
  {
    hide Answer, IsQuery, IsPayment;
    var n := |frames| - 1;
    if query < n {
      CandidateExists(frames[..n], correlations, responses, payment, query);
    } else {
      assert frames[..n][payment] == frames[payment];
    }
  }

  /** A numbered document is a complete commercial one and carries its candidate's counter; nothing else changed. */
  lemma {:induction false} AttachedAt(documents: seq<Document>, correlations: seq<Correlation>, responses: seq<ResponseFrame>, b: Budget, i: nat)
    requires i < |documents| && documents[i].numberSource.None? && documents[i].documentNumber.None?
    ensures var d, r := AttachAll(documents, correlations, responses, b).documents[i], Candidate(documents[i].frames, correlations, responses);
            && d.frames == documents[i].frames && d.fields == documents[i].fields && d.number == documents[i].number
            && d.kind == documents[i].kind && d.complete == documents[i].complete
            && (d.numberSource.Some? ==>
                  && d.kind.Commercial? && d.complete && r.Some?
                  && d.numberSource == Some(r.value.frameId) && d.documentNumber == r.value.counter)
  {
    var n := |documents| - 1;
    if i < n {
      AttachedAt(documents[..n], correlations, responses, b, i);
    } else {
      hide Candidate, Reserve;
    }
  }

  /** Each attached counter takes exactly four units of the budget, refused ones none. */
  lemma {:induction false} CountersCharge(documents: seq<Document>, correlations: seq<Correlation>, responses: seq<ResponseFrame>, b: Budget)
    requires forall i | 0 <= i < |documents| :: documents[i].numberSource.None?
    requires b.used <= b.limit
    ensures var r := AttachAll(documents, correlations, responses, b);
            && r.budget.limit == b.limit && r.budget.used <= b.limit
            && r.budget.used == b.used + COUNTER_FIELDS * NumberedCount(r.documents)
  {
    if documents != [] {
      var n := |documents| - 1;
      hide Candidate;
      CountersCharge(documents[..n], correlations, responses, b);
      var r := AttachAll(documents, correlations, responses, b);
      assert r.documents[..n] == AttachAll(documents[..n], correlations, responses, b).documents;
    }
  }

  /** When a document is numbered: exactly if it is a complete commercial one with an answered counter query after a
      payment, and four units of the budget are left when its turn comes. */
  lemma {:induction false} NumberedExactly(documents: seq<Document>, correlations: seq<Correlation>, responses: seq<ResponseFrame>,
                                           b: Budget, i: nat)
    requires forall k | 0 <= k < |documents| :: documents[k].numberSource.None?
    requires b.used <= b.limit && i < |documents|
    ensures var d, r := documents[i], AttachAll(documents, correlations, responses, b).documents;
            && (r[i].numberSource.Some? <==>
                  && d.kind.Commercial? && d.complete
                  && (exists payment, query :: Answered(d.frames, correlations, responses, payment, query))
                  && b.used + COUNTER_FIELDS * (NumberedCount(r[..i]) + 1) <= b.limit)
            && (r[i].numberSource.None? ==> r[i] == d)
            && (r[i].numberSource.Some? && r[i].documentNumber.Some? ==>
                  r[i] == d.(documentNumber := r[i].documentNumber, numberSource := r[i].numberSource,
                             footer := d.footer + ["", "DOCUMENTO N. (solo suffisso) " + r[i].documentNumber.value]))
    decreases |documents|
  {
    hide Candidate, Answer, IsQuery, IsPayment, Answered;
    var n := |documents| - 1;
    var r := AttachAll(documents, correlations, responses, b).documents;
    var before := AttachAll(documents[..n], correlations, responses, b);
    assert r[..n] == before.documents;
    if i < n {
      NumberedExactly(documents[..n], correlations, responses, b, i);
      assert r[..i] == before.documents[..i];
    } else {
      CountersCharge(documents[..n], correlations, responses, b);
      CandidateExactly(documents[n].frames, correlations, responses);
    }
  }

  lemma CandidateExactly(frames: seq<Frame>, correlations: seq<Correlation>, responses: seq<ResponseFrame>)
    ensures Candidate(frames, correlations, responses).Some? <==>
            exists payment, query :: Answered(frames, correlations, responses, payment, query)
  {
    hide Candidate, Answered;
    if Candidate(frames, correlations, responses).Some? {
      var payment, query := CandidateIsAnswer(frames, correlations, responses);
    }
    if payment, query :| Answered(frames, correlations, responses, payment, query) {
      AnsweredIsNat(frames, correlations, responses, payment, query);
      CandidateExists(frames, correlations, responses, payment, query);
    }
  }

  lemma AnsweredIsNat(frames: seq<Frame>, correlations: seq<Correlation>, responses: seq<ResponseFrame>, payment: nat, query: nat)
    requires Answered(frames, correlations, responses, payment, query)
    ensures payment < query < |frames|
  {
  }

  // ---------------------------------------------------------------- what an answer is

  /** The response answers the request: it has the profile and the payload of a counter answer, and its sequence digit
      is two below the request's, from 0 and 1 on to 8 and 9. */
  predicate Replies(request: Frame, response: ResponseFrame) {
    && response.bccValid && response.address == "01" && response.frameClass == 'N' && response.counter.Some?
    && |request.sequence| == 1 && IsDigit(request.sequence[0])
    && |response.sequence| == 1 && IsDigit(response.sequence[0])
    && (DigitValue(response.sequence[0]) + 2) % 10 == DigitValue(request.sequence[0])
  }

  lemma {:induction false} CorrelationForAt(correlations: seq<Correlation>, i: nat)
    requires i < |correlations|
    requires forall j, k | 0 <= j < k < |correlations| :: correlations[j].requestFrameId < correlations[k].requestFrameId
    ensures CorrelationFor(correlations, correlations[i].requestFrameId) == Some(correlations[i])
    decreases |correlations|
  {
    var n := |correlations| - 1;
    if i < n {
      CorrelationForAt(correlations[..n], i);
    }
  }

  lemma {:induction false} ResponseByIdAt(responses: seq<ResponseFrame>, i: nat)
    requires i < |responses| && ResponsesNumbered(responses)
    ensures ResponseById(responses, responses[i].frameId) == Some(responses[i])
    decreases |responses|
  {
    var n := |responses| - 1;
    if i < n {
      ResponseByIdAt(responses[..n], i);
    }
  }

  lemma SequenceMatches(request: string, response: string)
    ensures ExpectedResponseSequence(request) == Some(response) <==>
            && |request| == 1 && IsDigit(request[0]) && |response| == 1 && IsDigit(response[0])
            && (DigitValue(response[0]) + 2) % 10 == DigitValue(request[0])
  {
    if |request| == 1 && IsDigit(request[0]) && |response| == 1 && IsDigit(response[0]) {
      var v := (DigitValue(request[0]) + 8) % 10;
      assert DigitValue(Digit(v)) == v;
      assert response == [response[0]];
    }
  }

  /** The answer to a request is the response at the same position, and only if that response replies to it. */
  lemma AnswerIsAtSamePosition(requests: seq<Frame>, responses: seq<ResponseFrame>, acks: seq<nat>, i: nat)
    requires IdsRise(requests) && ResponsesNumbered(responses) && i < |requests|
    ensures Answer(requests[i], Correlate(requests, responses, acks), responses) ==
            if i < |responses| && Replies(requests[i], responses[i]) then Some(responses[i]) else None
  {
    hide ExpectedResponseSequence, CorrelationFor, ResponseById;
    var cs := Correlate(requests, responses, acks);
    CorrelationForAt(cs, i);
    if i < |responses| {
      ResponseByIdAt(responses, i);
      SequenceMatches(requests[i].sequence, responses[i].sequence);
    }
  }

  /** Each correlation pairs a request with the acknowledgement and the response at its own position, and its verdict
      compares the two sequence digits. */
  lemma PairedByPosition(requests: seq<Frame>, responses: seq<ResponseFrame>, acks: seq<nat>, i: nat)
    requires i < |requests|
    ensures var c := Correlate(requests, responses, acks)[i];
            && c.requestFrameId == requests[i].frameId
            && (if i < |acks| then c.ackEventId == Some(acks[i]) else c.ackEventId.None?)
            && (if i < |responses| then c.responseFrameId == Some(responses[i].frameId) && c.observed == Some(responses[i].sequence)
                else c.responseFrameId.None? && c.observed.None? && c.matches.None?)
            && (i < |responses| ==> (c.matches == Some(false) <==> Contradicts(requests[i], responses[i])))
            && (i < |responses| && c.matches.None? ==> !(|requests[i].sequence| == 1 && IsDigit(requests[i].sequence[0])))
  {
    hide ExpectedResponseSequence;
    ExpectsDigit(requests[i].sequence);
    if i < |responses| {
      SequenceMatches(requests[i].sequence, responses[i].sequence);
    }
  }

  // ---------------------------------------------------------------- what the issues say

  /** The response's sequence contradicts the request's; a request without a decimal digit expects nothing. */
  predicate Contradicts(request: Frame, response: ResponseFrame) {
    && |request.sequence| == 1 && IsDigit(request.sequence[0])
    && !(&& |response.sequence| == 1 && IsDigit(response.sequence[0])
         && (DigitValue(response.sequence[0]) + 2) % 10 == DigitValue(request.sequence[0]))
  }

  /** The issue names a real disagreement of the three lists at some position. */
  predicate Justified(requests: seq<Frame>, responses: seq<ResponseFrame>, acks: seq<nat>, issue: CorrelationIssue, i: nat) {
    match issue
    case MissingAck(id) => |acks| <= i < |requests| && requests[i].frameId == id
    case MissingResponse(id) => |responses| <= i < |requests| && requests[i].frameId == id
    case SequenceMismatch(id) =>
      i < |requests| && i < |responses| && responses[i].frameId == id && Contradicts(requests[i], responses[i])
    case UnmatchedResponse(id) => |requests| <= i < |responses| && responses[i].frameId == id
    case UnmatchedAck(id) => |requests| <= i < |acks| && acks[i] == id
  }

  lemma {:induction false} PairIssuesAre(correlations: seq<Correlation>, issue: CorrelationIssue)
    ensures issue in PairIssues(correlations) <==> exists i :: 0 <= i < |correlations| && issue in IssuesOf(correlations[i])
  {
    hide IssuesOf;
    if correlations != [] {
      PairIssuesAre(correlations[..|correlations| - 1], issue);
    }
  }

  lemma IssuesAtPosition(requests: seq<Frame>, responses: seq<ResponseFrame>, acks: seq<nat>, issue: CorrelationIssue, i: nat)
    requires i < |requests|
    ensures issue in IssuesOf(CorrelationAt(requests, responses, acks, i)) <==>
            Justified(requests, responses, acks, issue, i)
  {
    hide ExpectedResponseSequence;
    if i < |responses| {
      SequenceMatches(requests[i].sequence, responses[i].sequence);
      ExpectsDigit(requests[i].sequence);
    }
  }

  lemma ExpectsDigit(request: string)
    ensures ExpectedResponseSequence(request).Some? <==> |request| == 1 && IsDigit(request[0])
  {
  }

  /** The issues are exactly the disagreements: every one of them is reported and nothing else is. */
  lemma IssuesAreDisagreements(requests: seq<Frame>, responses: seq<ResponseFrame>, acks: seq<nat>, issue: CorrelationIssue)
    ensures issue in AllIssues(requests, responses, acks) <==>
            exists i :: Justified(requests, responses, acks, issue, i)
  {
    hide CorrelationAt, IssuesOf, PairIssues;
    var cs := Correlate(requests, responses, acks);
    PairIssuesAre(cs, issue);
    forall i | 0 <= i < |requests|
      ensures issue in IssuesOf(cs[i]) <==> Justified(requests, responses, acks, issue, i)
    {
      IssuesAtPosition(requests, responses, acks, issue, i);
    }
    TrailingAre(requests, responses, acks, issue);
  }

  lemma TrailingAre(requests: seq<Frame>, responses: seq<ResponseFrame>, acks: seq<nat>, issue: CorrelationIssue)
    ensures issue in UnmatchedResponses(From(responses, |requests|)) + UnmatchedAcks(From(acks, |requests|)) <==>
            exists i :: |requests| <= i && Justified(requests, responses, acks, issue, i)
  {
    var rs, qs := From(responses, |requests|), From(acks, |requests|);
    forall i | |requests| <= i < |responses| ensures responses[i] == rs[i - |requests|] {}
    forall i | |requests| <= i < |acks| ensures acks[i] == qs[i - |requests|] {}
    if i :| |requests| <= i && Justified(requests, responses, acks, issue, i) {
      if issue.UnmatchedResponse? {
        assert UnmatchedResponses(rs)[i - |requests|] == issue;
      } else {
        assert UnmatchedAcks(qs)[i - |requests|] == issue;
      }
    }
    if issue in UnmatchedResponses(rs) {
      var k :| 0 <= k < |rs| && UnmatchedResponses(rs)[k] == issue;
      assert Justified(requests, responses, acks, issue, k + |requests|);
    }
    if issue in UnmatchedAcks(qs) {
      var k :| 0 <= k < |qs| && UnmatchedAcks(qs)[k] == issue;
      assert Justified(requests, responses, acks, issue, k + |requests|);
    }
  }
}
