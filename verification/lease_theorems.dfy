/** Safety of the lease protocol over all runs. */
module LeaseTheorems {
  import opened Options
  import opened LeaseModel
  import opened LeaseInvariant

  // ---------------------------------------------------------------- acceptance

  /** In every state of every run, .parsed names the outputs in place. */
  lemma AcceptedOutputsInPlace(cfg: Config, states: seq<State>, steps: seq<Step>, i: nat)
    requires Run(cfg, states, steps) && i < |states|
    ensures ParsedMatches(states[i].dir)
  {
    RunKeeps(cfg, states, steps, i);
  }

  // ---------------------------------------------------------------- fencing

  /** w's token was written to .processing at some time, or never will be, and is not there now. */
  predicate Displaced(s: State, w: Worker) {
    && w in s.processes
    && s.processes[w].token.Some?
    && !s.processes[w].point.WriteMarker?
    && !Current(s, w)
  }

  predicate TakenBy(step: Step, w: Worker) {
    match step
    case SpawnStep(v, _) => v == w
    case ClaimStep(v, _) => v == w
    case WorkStep(v, _) => v == w
    case CommitStep(v, _) => v == w
    case FailStep(v, _) => v == w
    case EndStep(v, _) => v == w
    case CrashStep(v) => v == w
    case SpawnReparseStep(_) => false
    case ReparseStep(_, _) => false
    case TickStep(_) => false
  }

  /** The shared state of the job: everything but the private staging directories. */
  function Shared(d: Directory): Directory {
    d.(staging := map[])
  }

  /** A step of w that changes neither the shared state nor w's token. */
  predicate Harmless(s: State, s': State, w: Worker) {
    && w in s.processes && w in s'.processes
    && Shared(s'.dir) == Shared(s.dir)
    && s'.processes[w].token == s.processes[w].token
    && !s'.processes[w].point.WriteMarker?
  }

  lemma UnfencedWork(s: State, w: Worker, a: WorkAction)
    requires CanWork(s, w, a) && !Current(s, w) && !s.processes[w].point.WriteMarker?
    ensures Harmless(s, Work(s, w, a), w)
  {
  }

  lemma UnfencedCommit(s: State, w: Worker, a: CommitAction)
    requires CanCommit(s, w, a) && !Fenced(s.processes[w].point)
    ensures Harmless(s, Commit(s, w, a), w)
  {
  }

  lemma UnfencedFail(cfg: Config, s: State, w: Worker, a: FailAction)
    requires CanFail(s, w, a) && !Fenced(s.processes[w].point)
    ensures Harmless(s, Fail(cfg, s, w, a), w)
  {
  }

  lemma UnfencedEnd(s: State, w: Worker, a: EndAction)
    requires CanEnd(s, w, a) && !Fenced(s.processes[w].point)
    ensures Harmless(s, End(s, w, a), w)
  {
  }

  /** Holding a token outside WriteMarker rules out the claiming points, and not being current the fenced
      ones. */
  lemma DisplacedPoint(s: State, w: Worker)
    requires Inv(s) && Displaced(s, w)
    ensures !Claiming(s.processes[w].point) && !Fenced(s.processes[w].point)
  {
    assert ProcessOk(s, w);
  }

  lemma NotClaiming(cfg: Config, s: State, w: Worker, a: ClaimAction)
    requires CanClaim(cfg, s, w, a)
    ensures Claiming(s.processes[w].point)
  {
  }

  lemma DisplacedIsHarmless(cfg: Config, s: State, step: Step, w: Worker)
    requires Inv(s) && Enabled(cfg, s, step) && Displaced(s, w) && TakenBy(step, w)
    ensures Harmless(s, Apply(cfg, s, step), w)
  {
    DisplacedPoint(s, w);
    hide Inv, Claim, Work, Commit, Fail, End, Fenced, Claiming, CanClaim, CanWork, CanCommit, CanFail, CanEnd;
    match step
    case ClaimStep(_, a) => NotClaiming(cfg, s, w, a);
    case WorkStep(_, a) => UnfencedWork(s, w, a);
    case CommitStep(_, a) => UnfencedCommit(s, w, a);
    case FailStep(_, a) => UnfencedFail(cfg, s, w, a);
    case EndStep(_, a) => UnfencedEnd(s, w, a);
    case _ =>
  }

  lemma DisplacedByOwnStep(cfg: Config, s: State, step: Step, w: Worker)
    requires Inv(s) && Enabled(cfg, s, step) && Displaced(s, w) && TakenBy(step, w)
    ensures Displaced(Apply(cfg, s, step), w)
    ensures Shared(Apply(cfg, s, step).dir) == Shared(s.dir)
  {
    DisplacedIsHarmless(cfg, s, step, w);
    hide Inv, Enabled, Apply;
  }

  /** A step of v writes no other token than v's to .processing. */
  predicate MarksOwn(s: State, s': State, v: Worker)
    requires v in s'.processes
  {
    || s'.dir.processing == s.dir.processing
    || s'.dir.processing.None?
    || s'.dir.processing.value.token.None?
    || s'.dir.processing.value.token == s'.processes[v].token
  }

  lemma ClaimMarksOwn(cfg: Config, s: State, v: Worker, a: ClaimAction)
    requires CanClaim(cfg, s, v, a)
    ensures v in Claim(cfg, s, v, a).processes && MarksOwn(s, Claim(cfg, s, v, a), v)
  {
  }

  lemma WorkMarksOwn(s: State, v: Worker, a: WorkAction)
    requires CanWork(s, v, a)
    ensures v in Work(s, v, a).processes && MarksOwn(s, Work(s, v, a), v)
  {
  }

  lemma CommitMarksOwn(s: State, v: Worker, a: CommitAction)
    requires CanCommit(s, v, a)
    ensures v in Commit(s, v, a).processes && MarksOwn(s, Commit(s, v, a), v)
  {
  }

  lemma FailMarksOwn(cfg: Config, s: State, v: Worker, a: FailAction)
    requires CanFail(s, v, a)
    ensures v in Fail(cfg, s, v, a).processes && MarksOwn(s, Fail(cfg, s, v, a), v)
  {
  }

  lemma EndMarksOwn(s: State, v: Worker, a: EndAction)
    requires CanEnd(s, v, a)
    ensures v in End(s, v, a).processes && MarksOwn(s, End(s, v, a), v)
  {
  }

  /** Another worker's step cannot bring back a displaced token: it marks with its own one at most. */
  lemma DisplacedStays(s: State, s': State, v: Worker, w: Worker)
    requires Displaced(s, w) && v != w && OwnStep(s, s', v) && MarksOwn(s, s', v) && TokensDistinct(s')
    ensures Displaced(s', w)
  {
    assert s'.processes[w] == s.processes[w];
    assert s'.processes[w].token != s'.processes[v].token;
  }

  lemma UnmarkedStays(s: State, s': State, w: Worker)
    requires Displaced(s, w) && w in s'.processes
    requires s'.processes[w] == s.processes[w] && s'.dir.processing == s.dir.processing
    ensures Displaced(s', w)
  {
  }

  lemma InvTokensDistinct(s: State)
    requires Inv(s)
    ensures TokensDistinct(s)
  {
  }

  lemma DisplacedByOther(cfg: Config, s: State, step: Step, w: Worker)
    requires Inv(s) && Enabled(cfg, s, step) && Displaced(s, w) && !TakenBy(step, w)
    ensures Displaced(Apply(cfg, s, step), w)
  {
    var s' := Apply(cfg, s, step);
    StepKeeps(cfg, s, step);
    InvTokensDistinct(s');
    hide Inv, Displaced, OwnStep, MarksOwn, TokensDistinct, Claim, Work, Commit, Fail, End,
         CanClaim, CanWork, CanCommit, CanFail, CanEnd;
    match step
    case ClaimStep(v, a) =>
      ClaimKeeps(cfg, s, v, a);
      ClaimMarksOwn(cfg, s, v, a);
      DisplacedStays(s, s', v, w);
    case WorkStep(v, a) =>
      WorkKeeps(s, v, a);
      WorkMarksOwn(s, v, a);
      DisplacedStays(s, s', v, w);
    case CommitStep(v, a) =>
      CommitKeeps(s, v, a);
      CommitMarksOwn(s, v, a);
      DisplacedStays(s, s', v, w);
    case FailStep(v, a) =>
      FailKeeps(cfg, s, v, a);
      FailMarksOwn(cfg, s, v, a);
      DisplacedStays(s, s', v, w);
    case EndStep(v, a) =>
      EndKeeps(s, v, a);
      EndMarksOwn(s, v, a);
      DisplacedStays(s, s', v, w);
    case _ =>
      DisplacedIsProcess(s, w);
      UnmarkedStays(s, s', w);
  }

  lemma DisplacedIsProcess(s: State, w: Worker)
    requires Displaced(s, w)
    ensures w in s.processes
  {
  }

  lemma DisplacedStep(cfg: Config, s: State, step: Step, w: Worker)
    requires Inv(s) && Enabled(cfg, s, step) && Displaced(s, w)
    ensures Displaced(Apply(cfg, s, step), w)
    ensures TakenBy(step, w) ==> Shared(Apply(cfg, s, step).dir) == Shared(s.dir)
  {
    hide Inv, Enabled, Apply, Displaced;
    if TakenBy(step, w) {
      DisplacedByOwnStep(cfg, s, step, w);
    } else {
      DisplacedByOther(cfg, s, step, w);
    }
  }

  /** Fencing: from the moment a token is displaced it stays displaced, and no later step of its worker
      changes the shared state of the job, whatever the others do. */
  lemma {:induction false} DisplacedForever(cfg: Config, states: seq<State>, steps: seq<Step>, i: nat, j: nat, w: Worker)
    requires Run(cfg, states, steps) && i <= j < |states| && Displaced(states[i], w)
    ensures Displaced(states[j], w)
    ensures j < |steps| && TakenBy(steps[j], w) ==> Shared(states[j + 1].dir) == Shared(states[j].dir)
    decreases j
  {
    hide Inv, Enabled, Apply, Displaced, Shared, TakenBy, Init;
    if i < j {
      DisplacedForever(cfg, states, steps, i, j - 1, w);
      RunKeeps(cfg, states, steps, j - 1);
      DisplacedStep(cfg, states[j - 1], steps[j - 1], w);
    }
    if j < |steps| {
      RunKeeps(cfg, states, steps, j);
      DisplacedStep(cfg, states[j], steps[j], w);
    }
  }

  // ---------------------------------------------------------------- runs without force or reparse

  /** Only ordinary scans: no forced claim, no reparse. */
  predicate Plain(step: Step) {
    match step
    case SpawnStep(_, force) => !force
    case SpawnReparseStep(_) => false
    case _ => true
  }

  /** Some worker has counted its last failure and not yet written the quarantine marker. */
  predicate InGap(s: State) {
    match s.lock
    case Some(ByWorker(w)) => At(s, w, FailQuarantine)
    case _ => false
  }

  /** Points at which w can still count a failure, reached only while the job is not quarantined. */
  predicate Active(s: State, w: Worker)
    requires w in s.processes
  {
    var point := s.processes[w].point;
    || point.CreateMarker? || point.WriteMarker?
    || (Current(s, w) && (Uncommitted(point) || point.CommitTidy? || point.Failing? || point.FailLocked?
                          || point.FailCount? || point.FailQuarantine?))
  }

  /** The worker stops after it counted its last failure and before it wrote the quarantine marker. */
  predicate LosesMarker(s: State, step: Step) {
    match step
    case CrashStep(w) => At(s, w, FailQuarantine)
    case FailStep(w, a) => a.FailureStateError? && At(s, w, FailQuarantine)
    case _ => false
  }

  /** Steps that unlink the attempt counter. */
  predicate DropsCounter(step: Step) {
    match step
    case ClaimStep(_, a) => a.ForceClearAttempts?
    case CommitStep(_, a) => a.DropAttempts?
    case _ => false
  }

  /** The quarantine markers lost in the first i steps since the counter was last dropped. */
  function LostMarkers(states: seq<State>, steps: seq<Step>, i: nat): nat
    requires i <= |steps| <= |states|
  {
    if i == 0 || DropsCounter(steps[i - 1]) then 0
    else LostMarkers(states, steps, i - 1) + if LosesMarker(states[i - 1], steps[i - 1]) then 1 else 0
  }

  lemma GapsStep(cfg: Config, s: State, step: Step)
    requires Enabled(cfg, s, step)
    ensures Apply(cfg, s, step).gaps ==
            if DropsCounter(step) then 0 else s.gaps + if LosesMarker(s, step) then 1 else 0
  {
  }

  lemma {:induction false} GapsAreLostMarkers(cfg: Config, states: seq<State>, steps: seq<Step>, i: nat)
    requires Run(cfg, states, steps) && i < |states|
    ensures states[i].gaps == LostMarkers(states, steps, i)
    decreases i
  {
    hide Apply, Enabled, DropsCounter, LosesMarker;
    if i > 0 {
      GapsAreLostMarkers(cfg, states, steps, i - 1);
      GapsStep(cfg, states[i - 1], steps[i - 1]);
    }
  }

  predicate CommittedOnce(s: State) {
    |s.committed| <= 1 && (s.committed != {} ==> s.dir.parsed.Some?)
  }

  /** The failure count is bounded by the retries, up to the lost quarantine markers, and once one was lost it is
      that far beyond them; quarantine holds once the retries are used up. */
  predicate Accounted(cfg: Config, s: State) {
    var count := FailureCount(s.dir);
    && count <= cfg.retryCount + 1 + s.gaps
    && (s.dir.failed ==> cfg.retryCount < count)
    && (!s.dir.failed && !InGap(s) ==> count <= cfg.retryCount + s.gaps)
    && (InGap(s) ==> cfg.retryCount < count)
    && (0 < s.gaps ==> cfg.retryCount + s.gaps + (if s.dir.failed || InGap(s) then 1 else 0) <= count)
  }

  ghost predicate PlainInv(cfg: Config, s: State) {
    && Inv(s)
    && s.reparses == map[]
    && (forall w | w in s.processes :: Ordinary(s, w))
    && CommittedOnce(s)
    && Accounted(cfg, s)
  }

  /** A step of w that may quarantine the job only while w's token is current, and that writes no other
      token to .processing. */
  predicate OwnMarkers(s: State, s': State, w: Worker)
    requires w in s.processes && w in s'.processes
  {
    && (s'.dir.failed ==> s.dir.failed || (s.lock == Some(ByWorker(w)) && Current(s, w)))
    && MarksOwn(s, s', w)
  }

  /** An ordinary worker, which can count failures only while the job is not quarantined. */
  predicate Ordinary(s: State, w: Worker)
    requires w in s.processes
  {
    && !s.processes[w].force && !s.processes[w].point.ClearFailed? && !s.processes[w].point.ClearAttempts?
    && (Active(s, w) ==> !s.dir.failed)
  }

  lemma OthersOrdinary(s: State, s': State, w: Worker)
    requires Inv(s) && Inv(s') && OwnStep(s, s', w) && OwnMarkers(s, s', w)
    requires forall v | v in s.processes :: Ordinary(s, v)
    ensures forall v | v in s'.processes && v != w :: Ordinary(s', v)
  {
    forall v | v in s'.processes && v != w ensures Ordinary(s', v) {
      assert Ordinary(s, v);
      assert s'.processes[v] == s.processes[v];
      assert ProcessOk(s, v) && ProcessOk(s', v) && ProcessOk(s', w);
      assert s.processes[v].token.Some? ==> s'.processes[v].token != s'.processes[w].token;
      assert s.processes[v].token.Some? ==> s.processes[v].token != s.processes[w].token;
    }
  }

  lemma ClaimOrdinary(cfg: Config, s: State, w: Worker, a: ClaimAction)
    requires CanClaim(cfg, s, w, a) && ProcessOk(s, w) && Ordinary(s, w)
    ensures Ordinary(Claim(cfg, s, w, a), w) && OwnMarkers(s, Claim(cfg, s, w, a), w)
  {
  }

  lemma ClaimAccounted(cfg: Config, s: State, w: Worker, a: ClaimAction)
    requires CanClaim(cfg, s, w, a) && ProcessOk(s, w) && MarkerOk(s) && Ordinary(s, w)
    requires CommittedOnce(s) && Accounted(cfg, s)
    ensures CommittedOnce(Claim(cfg, s, w, a)) && Accounted(cfg, Claim(cfg, s, w, a))
  {
  }

  lemma WorkOrdinary(cfg: Config, s: State, w: Worker, a: WorkAction)
    requires CanWork(s, w, a) && ProcessOk(s, w) && Ordinary(s, w)
    ensures Ordinary(Work(s, w, a), w) && OwnMarkers(s, Work(s, w, a), w)
  {
  }

  lemma WorkAccounted(cfg: Config, s: State, w: Worker, a: WorkAction)
    requires CanWork(s, w, a) && ProcessOk(s, w) && MarkerOk(s) && Ordinary(s, w)
    requires CommittedOnce(s) && Accounted(cfg, s)
    ensures CommittedOnce(Work(s, w, a)) && Accounted(cfg, Work(s, w, a))
  {
  }

  lemma CommitOrdinary(cfg: Config, s: State, w: Worker, a: CommitAction)
    requires CanCommit(s, w, a) && ProcessOk(s, w) && Ordinary(s, w)
    ensures Ordinary(Commit(s, w, a), w) && OwnMarkers(s, Commit(s, w, a), w)
  {
  }

  lemma CommitAccounted(cfg: Config, s: State, w: Worker, a: CommitAction)
    requires CanCommit(s, w, a) && ProcessOk(s, w) && MarkerOk(s) && Ordinary(s, w)
    requires CommittedOnce(s) && Accounted(cfg, s)
    ensures CommittedOnce(Commit(s, w, a)) && Accounted(cfg, Commit(s, w, a))
  {
    CommitOnce(s, w, a);
    CommitCounts(cfg, s, w, a);
    hide Commit, CanCommit, Accounted, CommittedOnce;
  }

  lemma CommitOnce(s: State, w: Worker, a: CommitAction)
    requires CanCommit(s, w, a) && ProcessOk(s, w) && MarkerOk(s) && Ordinary(s, w) && CommittedOnce(s)
    ensures CommittedOnce(Commit(s, w, a))
  {
  }

  lemma CommitCounts(cfg: Config, s: State, w: Worker, a: CommitAction)
    requires CanCommit(s, w, a) && ProcessOk(s, w) && Ordinary(s, w) && Accounted(cfg, s)
    ensures Accounted(cfg, Commit(s, w, a))
  {
  }

  lemma FailOrdinary(cfg: Config, s: State, w: Worker, a: FailAction)
    requires CanFail(s, w, a) && ProcessOk(s, w) && Ordinary(s, w)
    ensures Ordinary(Fail(cfg, s, w, a), w) && OwnMarkers(s, Fail(cfg, s, w, a), w)
  {
  }

  lemma FailAccounted(cfg: Config, s: State, w: Worker, a: FailAction)
    requires CanFail(s, w, a) && ProcessOk(s, w) && MarkerOk(s) && Ordinary(s, w)
    requires CommittedOnce(s) && Accounted(cfg, s)
    ensures CommittedOnce(Fail(cfg, s, w, a)) && Accounted(cfg, Fail(cfg, s, w, a))
  {
  }

  lemma EndOrdinary(cfg: Config, s: State, w: Worker, a: EndAction)
    requires CanEnd(s, w, a) && ProcessOk(s, w) && Ordinary(s, w)
    ensures Ordinary(End(s, w, a), w) && OwnMarkers(s, End(s, w, a), w)
  {
  }

  lemma EndAccounted(cfg: Config, s: State, w: Worker, a: EndAction)
    requires CanEnd(s, w, a) && ProcessOk(s, w) && MarkerOk(s) && Ordinary(s, w)
    requires CommittedOnce(s) && Accounted(cfg, s)
    ensures CommittedOnce(End(s, w, a)) && Accounted(cfg, End(s, w, a))
  {
  }

  lemma CrashOrdinary(cfg: Config, s: State, w: Worker)
    requires Enabled(cfg, s, CrashStep(w)) && ProcessOk(s, w) && Ordinary(s, w)
    ensures Ordinary(Apply(cfg, s, CrashStep(w)), w) && OwnMarkers(s, Apply(cfg, s, CrashStep(w)), w)
  {
  }

  lemma CrashAccounted(cfg: Config, s: State, w: Worker)
    requires Enabled(cfg, s, CrashStep(w)) && ProcessOk(s, w) && MarkerOk(s) && Ordinary(s, w)
    requires CommittedOnce(s) && Accounted(cfg, s)
    ensures CommittedOnce(Apply(cfg, s, CrashStep(w))) && Accounted(cfg, Apply(cfg, s, CrashStep(w)))
  {
  }

  lemma PlainStepKeeps(cfg: Config, s: State, step: Step)
    requires PlainInv(cfg, s) && Enabled(cfg, s, step) && Plain(step)
    ensures PlainInv(cfg, Apply(cfg, s, step))
  {
    StepKeeps(cfg, s, step);
    var s' := Apply(cfg, s, step);
    hide Claim, Work, Commit, Fail, End, CanClaim, CanWork, CanCommit, CanFail, CanEnd, Ordinary, Accounted, CommittedOnce;
    match step
    case ClaimStep(w, a) =>
      ClaimKeeps(cfg, s, w, a);
      ClaimOrdinary(cfg, s, w, a);
      ClaimAccounted(cfg, s, w, a);
      OthersOrdinary(s, s', w);
    case WorkStep(w, a) =>
      WorkKeeps(s, w, a);
      WorkOrdinary(cfg, s, w, a);
      WorkAccounted(cfg, s, w, a);
      OthersOrdinary(s, s', w);
    case CommitStep(w, a) =>
      CommitKeeps(s, w, a);
      CommitOrdinary(cfg, s, w, a);
      CommitAccounted(cfg, s, w, a);
      OthersOrdinary(s, s', w);
    case FailStep(w, a) =>
      FailKeeps(cfg, s, w, a);
      FailOrdinary(cfg, s, w, a);
      FailAccounted(cfg, s, w, a);
      OthersOrdinary(s, s', w);
    case EndStep(w, a) =>
      EndKeeps(s, w, a);
      EndOrdinary(cfg, s, w, a);
      EndAccounted(cfg, s, w, a);
      OthersOrdinary(s, s', w);
    case CrashStep(w) =>
      CrashKeeps(cfg, s, w);
      CrashOrdinary(cfg, s, w);
      CrashAccounted(cfg, s, w);
      OthersOrdinary(s, s', w);
    case SpawnStep(_, _) => SpawnPlain(cfg, s, step);
    case TickStep(_) => SpawnPlain(cfg, s, step);
    case _ =>
  }

  lemma SpawnPlain(cfg: Config, s: State, step: Step)
    requires PlainInv(cfg, s) && Enabled(cfg, s, step) && Plain(step)
    requires step.SpawnStep? || step.TickStep?
    ensures PlainInv(cfg, Apply(cfg, s, step))
  {
    StepKeeps(cfg, s, step);
    var s' := Apply(cfg, s, step);
    forall v | v in s'.processes ensures Ordinary(s', v) {
      assert v in s.processes ==> s'.processes[v] == s.processes[v] && Ordinary(s, v);
    }
    assert InGap(s') == InGap(s);
  }

  lemma {:induction false} PlainRunKeeps(cfg: Config, states: seq<State>, steps: seq<Step>, i: nat)
    requires Run(cfg, states, steps) && i < |states|
    requires forall k | 0 <= k < |steps| :: Plain(steps[k])
    ensures PlainInv(cfg, states[i])
    decreases i
  {
    if i > 0 {
      PlainRunKeeps(cfg, states, steps, i - 1);
      PlainStepKeeps(cfg, states[i - 1], steps[i - 1]);
    }
  }

  /** Without force or reparse a job commits at most once, and once committed it stays accepted. */
  lemma CommitsAtMostOnce(cfg: Config, states: seq<State>, steps: seq<Step>, i: nat)
    requires Run(cfg, states, steps) && i < |states|
    requires forall k | 0 <= k < |steps| :: Plain(steps[k])
    ensures |states[i].committed| <= 1
    ensures states[i].committed != {} ==> states[i].dir.parsed.Some?
  {
    PlainRunKeeps(cfg, states, steps, i);
  }

  /** The documented accounting of a job: at most retries + 1 attempts, and quarantine exactly when they are used. */
  predicate RetriesKept(cfg: Config, d: Directory) {
    && FailureCount(d) <= cfg.retryCount + 1
    && (d.failed <==> FailureCount(d) == cfg.retryCount + 1)
  }

  /** The documented accounting holds if and only if no quarantine marker was lost since the counter was last
      dropped (GapsAreLostMarkers) and no worker is between the two writes of a final failure. */
  lemma RetriesExact(cfg: Config, states: seq<State>, steps: seq<Step>, i: nat)
    requires Run(cfg, states, steps) && i < |states|
    requires forall k | 0 <= k < |steps| :: Plain(steps[k])
    ensures RetriesKept(cfg, states[i].dir) <==> states[i].gaps == 0 && !InGap(states[i])
  {
    PlainRunKeeps(cfg, states, steps, i);
    hide Run;
    GapIsOpen(cfg, states[i]);
  }

  /** While a worker is between the two writes the job is not quarantined yet. */
  lemma GapIsOpen(cfg: Config, s: State)
    requires PlainInv(cfg, s)
    ensures InGap(s) ==> !s.dir.failed
  {
    hide Accounted, CommittedOnce;
    if InGap(s) {
      var w := s.lock.value.worker;
      assert ProcessOk(s, w) && Ordinary(s, w);
    }
  }

  /** How far the count can exceed the documented bound: by the lost markers, and by all of them. */
  lemma RetriesBounded(cfg: Config, states: seq<State>, steps: seq<Step>, i: nat)
    requires Run(cfg, states, steps) && i < |states|
    requires forall k | 0 <= k < |steps| :: Plain(steps[k])
    ensures var d, lost, count := states[i].dir, states[i].gaps, FailureCount(states[i].dir);
            && count <= cfg.retryCount + 1 + lost
            && (0 < lost ==> count == cfg.retryCount + lost + if d.failed || InGap(states[i]) then 1 else 0)
  {
    hide Run, Inv, Ordinary, CommittedOnce;
    PlainRunKeeps(cfg, states, steps, i);
  }
}
