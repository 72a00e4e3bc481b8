/** What runs can reach: a job accepted after any crash, old outputs restored after a failed commit, a failure counted
    and released, a forced claim, a reopened job, and a retry lost to a crash between two writes. Every lemma leads
    from one state to the next by named steps; Leads admits ordinary steps only and none that waits. */
module LeaseRecovery {
  import opened Options
  import opened LeaseModel
  import opened LeaseInvariant
  import opened LeaseTheorems
  import opened LeaseStaleness

  /** states[i + 1] follows states[i] by steps[i]. */
  ghost predicate Path(cfg: Config, states: seq<State>, steps: seq<Step>) {
    && |states| == |steps| + 1
    && forall i | 0 <= i < |steps| :: Enabled(cfg, states[i], steps[i]) && Apply(cfg, states[i], steps[i]) == states[i + 1]
  }

  /** The steps lead from s to t. */
  ghost predicate Reaches(cfg: Config, s: State, steps: seq<Step>, t: State) {
    exists states :: Path(cfg, states, steps) && states[0] == s && states[|steps|] == t
  }

  /** They do so by ordinary scans and without waiting. */
  ghost predicate Leads(cfg: Config, s: State, steps: seq<Step>, t: State) {
    Reaches(cfg, s, steps, t) && forall i | 0 <= i < |steps| :: Plain(steps[i]) && !steps[i].TickStep?
  }

  lemma NoSteps(cfg: Config, s: State)
    ensures Leads(cfg, s, [], s)
  {
    assert Path(cfg, [s], []) && [s][0] == s;
  }

  lemma OneStep(cfg: Config, s: State, step: Step)
    requires Enabled(cfg, s, step)
    ensures Reaches(cfg, s, [step], Apply(cfg, s, step))
  {
    hide Enabled, Apply;
    var states := [s, Apply(cfg, s, step)];
    assert Path(cfg, states, [step]);
  }

  lemma ReachesOn(cfg: Config, s: State, first: seq<Step>, t: State, second: seq<Step>, u: State)
    requires Reaches(cfg, s, first, t) && Reaches(cfg, t, second, u)
    ensures Reaches(cfg, s, first + second, u)
  {
    hide Enabled, Apply;
    var before :| Path(cfg, before, first) && before[0] == s && before[|first|] == t;
    var after :| Path(cfg, after, second) && after[0] == t && after[|second|] == u;
    var states, steps := before + after[1..], first + second;
    forall i | 0 <= i < |steps|
      ensures Enabled(cfg, states[i], steps[i]) && Apply(cfg, states[i], steps[i]) == states[i + 1]
    {
      if i < |first| {
        assert steps[i] == first[i];
      } else {
        assert steps[i] == second[i - |first|];
      }
    }
    assert Path(cfg, states, steps);
  }

  lemma Take(cfg: Config, s0: State, steps0: seq<Step>, s: State, step: Step) returns (steps: seq<Step>, t: State)
    requires Leads(cfg, s0, steps0, s) && Enabled(cfg, s, step) && Plain(step) && !step.TickStep?
    ensures t == Apply(cfg, s, step) && steps == steps0 + [step] && Leads(cfg, s0, steps, t)
  {
    hide Reaches, Enabled, Apply, Plain;
    steps, t := steps0 + [step], Apply(cfg, s, step);
    OneStep(cfg, s, step);
    ReachesOn(cfg, s0, steps0, s, [step], t);
  }

  lemma TakeClaim(cfg: Config, s0: State, steps0: seq<Step>, s: State, w: Worker, a: ClaimAction)
    returns (steps: seq<Step>, t: State)
    requires Leads(cfg, s0, steps0, s) && CanClaim(cfg, s, w, a)
    ensures t == Claim(cfg, s, w, a) && steps == steps0 + [ClaimStep(w, a)] && Leads(cfg, s0, steps, t)
  {
    hide Leads, CanClaim, Claim;
    steps, t := Take(cfg, s0, steps0, s, ClaimStep(w, a));
  }

  lemma TakeWork(cfg: Config, s0: State, steps0: seq<Step>, s: State, w: Worker, a: WorkAction)
    returns (steps: seq<Step>, t: State)
    requires Leads(cfg, s0, steps0, s) && CanWork(s, w, a)
    ensures t == Work(s, w, a) && steps == steps0 + [WorkStep(w, a)] && Leads(cfg, s0, steps, t)
  {
    hide Leads, CanWork, Work;
    steps, t := Take(cfg, s0, steps0, s, WorkStep(w, a));
  }

  lemma TakeCommit(cfg: Config, s0: State, steps0: seq<Step>, s: State, w: Worker, a: CommitAction)
    returns (steps: seq<Step>, t: State)
    requires Leads(cfg, s0, steps0, s) && CanCommit(s, w, a)
    ensures t == Commit(s, w, a) && steps == steps0 + [CommitStep(w, a)] && Leads(cfg, s0, steps, t)
  {
    hide Leads, CanCommit, Commit;
    steps, t := Take(cfg, s0, steps0, s, CommitStep(w, a));
  }

  lemma TakeFail(cfg: Config, s0: State, steps0: seq<Step>, s: State, w: Worker, a: FailAction)
    returns (steps: seq<Step>, t: State)
    requires Leads(cfg, s0, steps0, s) && CanFail(s, w, a)
    ensures t == Fail(cfg, s, w, a) && steps == steps0 + [FailStep(w, a)] && Leads(cfg, s0, steps, t)
  {
    hide Leads, CanFail, Fail;
    steps, t := Take(cfg, s0, steps0, s, FailStep(w, a));
  }

  lemma TakeEnd(cfg: Config, s0: State, steps0: seq<Step>, s: State, w: Worker, a: EndAction)
    returns (steps: seq<Step>, t: State)
    requires Leads(cfg, s0, steps0, s) && CanEnd(s, w, a)
    ensures t == End(s, w, a) && steps == steps0 + [EndStep(w, a)] && Leads(cfg, s0, steps, t)
  {
    hide Leads, CanEnd, End;
    steps, t := Take(cfg, s0, steps0, s, EndStep(w, a));
  }

  /** What leads from an initial state is a run. */
  lemma ReachesIsRun(cfg: Config, s: State, steps: seq<Step>, t: State) returns (states: seq<State>)
    requires Init(s) && Reaches(cfg, s, steps, t)
    ensures Run(cfg, states, steps) && states[|steps|] == t
  {
    hide Enabled, Apply, Init;
    states :| Path(cfg, states, steps) && states[0] == s && states[|steps|] == t;
  }

  // ---------------------------------------------------------------- taking the lease

  /** w is sweeping the staging directories in its list, holding the lock. */
  lemma {:induction false} SweepAll(cfg: Config, s0: State, steps0: seq<Step>, s: State, w: Worker)
    returns (steps: seq<Step>, t: State)
    requires Leads(cfg, s0, steps0, s) && At(s, w, ClaimSweep)
    ensures Leads(cfg, s0, steps, t) && t == Swept(s, w)
    decreases |s.processes[w].todo|
  {
    hide Leads, Swept;
    var todo := s.processes[w].todo;
    if todo == {} {
      steps, t := steps0, s;
      SweptNothing(s, w);
    } else {
      var orphan :| orphan in todo;
      var steps1, s1 := TakeClaim(cfg, s0, steps0, s, w, SweepOrphan(orphan));
      assert |todo - {orphan}| < |todo|;
      steps, t := SweepAll(cfg, s0, steps1, s1, w);
      SweptOne(s, w, orphan);
    }
  }

  function Swept(s: State, w: Worker): State
    requires w in s.processes
  {
    var p := s.processes[w];
    s.(dir := s.dir.(staging := s.dir.staging - p.todo), processes := s.processes[w := p.(todo := {})])
  }

  lemma SweptNothing(s: State, w: Worker)
    requires w in s.processes && s.processes[w].todo == {}
    ensures Swept(s, w) == s
  {
    assert s.dir.staging - {} == s.dir.staging;
  }

  lemma SweptOne(s: State, w: Worker, orphan: Token)
    requires w in s.processes && orphan in s.processes[w].todo
    ensures Swept(SweepOne(s, w, orphan), w) == Swept(s, w)
  {
    var todo := s.processes[w].todo;
    assert (s.dir.staging - {orphan}) - (todo - {orphan}) == s.dir.staging - todo;
    var u := SweepOne(s, w, orphan);
    assert u.processes[w := u.processes[w].(todo := {})] == s.processes[w := s.processes[w].(todo := {})];
  }

  /** w has just been spawned without force. */
  function Spawned(s: State, w: Worker): State {
    s.(processes := s.processes[w := Process(false, Idle, None, None, {})])
  }

  lemma Spawn(cfg: Config, s: State, w: Worker) returns (steps: seq<Step>)
    requires w !in s.processes
    ensures Leads(cfg, s, steps, Spawned(s, w))
  {
    hide Leads;
    NoSteps(cfg, s);
    var t;
    steps, t := Take(cfg, s, [], s, SpawnStep(w, false));
  }

  /** A fresh worker finds no active claim, or displaces a stale one, and starts sweeping. */
  lemma ClaimOpens(cfg: Config, s: State, w: Worker) returns (steps: seq<Step>, t: State)
    requires s.lock.None? && w !in s.processes
    requires s.dir.processing.Some? ==> Abandoned(cfg, s)
    ensures Leads(cfg, s, steps, t)
    ensures t == s.(dir := s.dir.(processing := None), lock := Some(ByWorker(w)),
                    processes := s.processes[w := Process(false, ClaimSweep, None, None, s.dir.staging.Keys)])
  {
    hide Leads, Enabled, Apply;
    steps := Spawn(cfg, s, w);
    steps, t := TakeClaim(cfg, s, steps, Spawned(s, w), w, TakeClaimLock);
    steps, t := TakeClaim(cfg, s, steps, t, w, if s.dir.processing.Some? then DisplaceStale else SeeFree);
  }

  lemma ClaimSweeps(cfg: Config, s: State, w: Worker) returns (steps: seq<Step>, t: State)
    requires s.lock.None? && w !in s.processes
    requires s.dir.processing.Some? ==> Abandoned(cfg, s)
    ensures Leads(cfg, s, steps, t)
    ensures t == s.(dir := s.dir.(processing := None, staging := map[]), lock := Some(ByWorker(w)),
                    processes := s.processes[w := Process(false, ClaimSweep, None, None, {})])
  {
    hide Leads, Abandoned;
    steps, t := ClaimOpens(cfg, s, w);
    assert t.dir.staging - t.processes[w].todo == map[];
    steps, t := SweepAll(cfg, s, steps, t, w);
  }

  lemma ClaimDecides(cfg: Config, s0: State, steps0: seq<Step>, s: State, w: Worker) returns (steps: seq<Step>, t: State)
    requires Leads(cfg, s0, steps0, s) && At(s, w, ClaimSweep) && s.processes[w].todo == {} && !s.processes[w].force
    requires s.dir.parsed.None? && !s.dir.failed
    ensures Leads(cfg, s0, steps, t) && t == Go(s, w, CreateMarker)
  {
    hide Leads, Enabled, Apply;
    steps, t := TakeClaim(cfg, s0, steps0, s, w, OrphansSwept);
    steps, t := TakeClaim(cfg, s0, steps, t, w, Proceed);
  }

  lemma ClaimMarks(cfg: Config, s0: State, steps0: seq<Step>, s: State, w: Worker, token: Token)
    returns (steps: seq<Step>, t: State)
    requires Leads(cfg, s0, steps0, s) && At(s, w, CreateMarker)
    requires s.lock == Some(ByWorker(w)) && s.dir.processing.None? && token !in s.issued
    ensures Leads(cfg, s0, steps, t)
    ensures t == s.(dir := s.dir.(processing := Some(Marker(Some(token), s.clock))), lock := None,
                    processes := s.processes[w := s.processes[w].(point := Working, token := Some(token))],
                    issued := s.issued + {token})
  {
    hide Leads, Enabled, Apply;
    steps, t := TakeClaim(cfg, s0, steps0, s, w, CreateEmptyMarker(token));
    steps, t := TakeClaim(cfg, s0, steps, t, w, WriteToken);
  }

  /** s with the lease taken by the fresh worker w: no claim, staging directory or lock of another is left. */
  function Leased(s: State, w: Worker, token: Token): State {
    s.(dir := s.dir.(staging := map[], processing := Some(Marker(Some(token), s.clock))),
       processes := s.processes[w := Process(false, Working, Some(token), None, {})],
       issued := s.issued + {token})
  }

  /** A fresh worker gets the lease as soon as the previous one is gone or stale. */
  lemma ClaimSucceeds(cfg: Config, s: State, w: Worker, token: Token) returns (steps: seq<Step>, t: State)
    requires s.lock.None? && s.dir.parsed.None? && !s.dir.failed
    requires s.dir.processing.Some? ==> Abandoned(cfg, s)
    requires w !in s.processes && token !in s.issued
    ensures Leads(cfg, s, steps, t) && t == Leased(s, w, token)
  {
    hide Leads, Abandoned;
    steps, t := ClaimSweeps(cfg, s, w);
    steps, t := ClaimDecides(cfg, s, steps, t, w);
    steps, t := ClaimMarks(cfg, s, steps, t, w, token);
  }

  // ---------------------------------------------------------------- from the lease to the acceptance marker

  /** w holds the lease with a fresh token and no other staging directory exists. */
  predicate Unhindered(s: State, w: Worker, token: Token) {
    && w in s.processes && s.processes[w].token == Some(token)
    && s.dir.processing.Some? && s.dir.processing.value.token == Some(token)
    && s.dir.staging.Keys <= {token} && token !in s.dir.superseded
  }

  lemma ParseFinishes(cfg: Config, s0: State, steps0: seq<Step>, s: State, w: Worker, token: Token,
                      content: Output, receipt: Receipt)
    returns (steps: seq<Step>, t: State)
    requires Leads(cfg, s0, steps0, s) && Unhindered(s, w, token) && s.processes[w].point.Working? && s.lock.None?
    requires s.dir.staging == map[]
    ensures Leads(cfg, s0, steps, t) && Unhindered(t, w, token)
    ensures t == s.(dir := s.dir.(staging := map[token := content]), lock := Some(ByWorker(w)),
                    processes := s.processes[w := s.processes[w].(point := CommitLocked, receipt := Some(receipt))])
  {
    hide Leads, Enabled, Apply;
    steps, t := TakeWork(cfg, s0, steps0, s, w, MakeStaging);
    steps, t := TakeWork(cfg, s0, steps, t, w, WriteStaging(content));
    assert t.dir.staging == map[token := content];
    steps, t := TakeWork(cfg, s0, steps, t, w, FinishParse(receipt));
    steps, t := TakeWork(cfg, s0, steps, t, w, TakeCommitLock);
  }

  /** The staged outputs are recognised. */
  predicate Staged(s: State, w: Worker, token: Token) {
    && Unhindered(s, w, token) && token in s.dir.staging
    && s.processes[w].receipt.Some? && Validates(s.dir.staging[token], s.processes[w].receipt.value)
  }

  lemma CommitValidates(cfg: Config, s0: State, steps0: seq<Step>, s: State, w: Worker, token: Token)
    returns (steps: seq<Step>, t: State)
    requires Leads(cfg, s0, steps0, s) && Staged(s, w, token) && s.processes[w].point.CommitLocked?
    ensures Leads(cfg, s0, steps, t)
    ensures t == s.(processes := s.processes[w := s.processes[w].(point := CommitMoveOld, todo := {})])
  {
    hide Leads, Enabled, Apply, Validates;
    assert Current(s, w);
    steps, t := TakeCommit(cfg, s0, steps0, s, w, PassFence);
    assert t.processes[w].todo == {};
    steps, t := TakeCommit(cfg, s0, steps, t, w, OthersSwept);
    steps, t := TakeCommit(cfg, s0, steps, t, w, StagingValid);
  }

  /** The old outputs, if any, are set aside under the token. */
  lemma CommitSetsAside(cfg: Config, s0: State, steps0: seq<Step>, s: State, w: Worker, token: Token)
    returns (steps: seq<Step>, t: State)
    requires Leads(cfg, s0, steps0, s) && Staged(s, w, token) && s.processes[w].point.CommitMoveOld?
    ensures Leads(cfg, s0, steps, t)
    ensures t.dir.superseded - {token} == s.dir.superseded
    ensures t == s.(dir := s.dir.(pharsed := None, superseded := t.dir.superseded),
                    processes := s.processes[w := s.processes[w].(point := CommitMoveNew)])
  {
    hide Leads, Enabled, Apply, Validates;
    steps, t := TakeCommit(cfg, s0, steps0, s, w, MoveOldAway);
  }

  lemma CommitMovesIn(cfg: Config, s0: State, steps0: seq<Step>, s: State, w: Worker, token: Token)
    returns (steps: seq<Step>, t: State)
    requires Leads(cfg, s0, steps0, s) && w in s.processes && s.processes[w].point.CommitMoveNew?
    requires s.processes[w].token == Some(token) && s.dir.staging.Keys == {token}
    requires s.processes[w].receipt.Some? && Validates(s.dir.staging[token], s.processes[w].receipt.value)
    ensures Leads(cfg, s0, steps, t)
    ensures t == s.(dir := s.dir.(pharsed := Some(s.dir.staging[token]), staging := map[]),
                    processes := s.processes[w := s.processes[w].(point := CommitDropAttempts)])
  {
    hide Leads, Enabled, Apply, Validates;
    steps, t := TakeCommit(cfg, s0, steps0, s, w, MoveNewIn);
    assert t.dir.staging == map[];
    steps, t := TakeCommit(cfg, s0, steps, t, w, OutputsValid);
  }

  lemma CommitAnnounces(cfg: Config, s0: State, steps0: seq<Step>, s: State, w: Worker, token: Token)
    returns (steps: seq<Step>, t: State)
    requires Leads(cfg, s0, steps0, s) && w in s.processes && s.processes[w].token == Some(token)
    requires s.processes[w].point.CommitDropAttempts? && s.processes[w].receipt.Some?
    ensures Leads(cfg, s0, steps, t)
    ensures t == s.(dir := s.dir.(attempts := None, failed := false, parsed := s.processes[w].receipt), gaps := 0,
                    processes := s.processes[w := s.processes[w].(point := CommitTidy)],
                    committed := s.committed + {token})
  {
    hide Leads, Enabled, Apply;
    steps, t := TakeCommit(cfg, s0, steps0, s, w, DropAttempts);
    steps, t := TakeCommit(cfg, s0, steps, t, w, DropQuarantine);
    steps, t := TakeCommit(cfg, s0, steps, t, w, WriteParsed);
  }

  lemma TidiesUp(cfg: Config, s0: State, steps0: seq<Step>, s: State, w: Worker, token: Token)
    returns (steps: seq<Step>, t: State)
    requires Leads(cfg, s0, steps0, s) && w in s.processes && s.processes[w].token == Some(token)
    requires s.processes[w].point.CommitTidy? && s.lock == Some(ByWorker(w)) && s.dir.staging == map[]
    ensures Leads(cfg, s0, steps, t)
    ensures t == s.(dir := s.dir.(superseded := s.dir.superseded - {token}), lock := None,
                    processes := s.processes[w := s.processes[w].(point := Releasing)])
  {
    hide Leads, Enabled, Apply;
    steps, t := TakeCommit(cfg, s0, steps0, s, w, DropSuperseded(true));
    steps, t := TakeEnd(cfg, s0, steps, t, w, RemoveOwnStaging(true));
    assert t.dir.staging == map[];
  }

  lemma Releases(cfg: Config, s0: State, steps0: seq<Step>, s: State, w: Worker)
    returns (steps: seq<Step>, t: State)
    requires Leads(cfg, s0, steps0, s) && Current(s, w) && s.processes[w].point.Releasing? && s.lock.None?
    ensures Leads(cfg, s0, steps, t)
    ensures t == s.(dir := s.dir.(processing := None), processes := s.processes[w := s.processes[w].(point := Done)])
  {
    hide Leads, Enabled, Apply;
    steps, t := TakeEnd(cfg, s0, steps0, s, w, TakeReleaseLock);
    steps, t := TakeEnd(cfg, s0, steps, t, w, CheckRelease);
    steps, t := TakeEnd(cfg, s0, steps, t, w, UnlinkMarker);
  }

  /** d once a parse with these outputs is accepted and cleaned up. */
  function Accepted(d: Directory, content: Output, receipt: Receipt): Directory {
    d.(processing := None, parsed := Some(receipt), attempts := None, failed := false,
       pharsed := Some(content), staging := map[])
  }

  /** From the lease an undisturbed worker accepts whatever valid outputs it produced and releases the job. */
  lemma LeaseCommits(cfg: Config, s: State, w: Worker, token: Token, content: Output, receipt: Receipt)
    returns (steps: seq<Step>, t: State)
    requires Unhindered(s, w, token) && s.processes[w].point.Working? && s.lock.None?
    requires s.dir.staging == map[] && Validates(content, receipt)
    ensures Leads(cfg, s, steps, t)
    ensures t.dir == Accepted(s.dir, content, receipt) && t.lock.None? && token in t.committed && At(t, w, Done)
  {
    hide Leads, Validates;
    NoSteps(cfg, s);
    steps, t := ParseFinishes(cfg, s, [], s, w, token, content, receipt);
    steps, t := CommitValidates(cfg, s, steps, t, w, token);
    steps, t := CommitSetsAside(cfg, s, steps, t, w, token);
    steps, t := CommitMovesIn(cfg, s, steps, t, w, token);
    steps, t := CommitAnnounces(cfg, s, steps, t, w, token);
    steps, t := TidiesUp(cfg, s, steps, t, w, token);
    steps, t := Releases(cfg, s, steps, t, w);
  }

  // ---------------------------------------------------------------- recovery

  /** Old outputs are set aside under tokens that were handed out. */
  predicate SupersededIssued(s: State) {
    s.dir.superseded.Keys <= s.issued
  }

  /** From s to s' no token is forgotten and no outputs are set aside. */
  predicate SupersededKept(s: State, s': State) {
    s.issued <= s'.issued && s'.dir.superseded == s.dir.superseded
  }

  lemma ClaimSupersedesNone(cfg: Config, s: State, w: Worker, a: ClaimAction)
    requires CanClaim(cfg, s, w, a)
    ensures SupersededKept(s, Claim(cfg, s, w, a))
  {
  }

  lemma WorkSupersedesNone(s: State, w: Worker, a: WorkAction)
    requires CanWork(s, w, a)
    ensures SupersededKept(s, Work(s, w, a))
  {
  }

  lemma FailSupersedesNone(cfg: Config, s: State, w: Worker, a: FailAction)
    requires CanFail(s, w, a)
    ensures SupersededKept(s, Fail(cfg, s, w, a))
  {
  }

  lemma EndSupersedesNone(s: State, w: Worker, a: EndAction)
    requires CanEnd(s, w, a)
    ensures SupersededKept(s, End(s, w, a))
  {
  }

  lemma ReparseSupersedesNone(cfg: Config, s: State, r: nat, a: ReparseAction)
    requires CanReparse(cfg, s, r, a)
    ensures SupersededKept(s, Reparse(cfg, s, r, a))
  {
  }

  lemma CommitSupersedesIssued(s: State, w: Worker, a: CommitAction)
    requires CanCommit(s, w, a) && SupersededIssued(s) && s.processes[w].token.value in s.issued
    ensures SupersededIssued(Commit(s, w, a))
  {
  }

  lemma StepKeepsIssued(cfg: Config, s: State, step: Step)
    requires Inv(s) && SupersededIssued(s) && Enabled(cfg, s, step)
    ensures SupersededIssued(Apply(cfg, s, step))
  {
    hide CanClaim, Claim, CanWork, Work, CanCommit, Commit, CanFail, Fail, CanEnd, End, CanReparse, Reparse;
    match step
    case ClaimStep(w, a) => ClaimSupersedesNone(cfg, s, w, a);
    case WorkStep(w, a) => WorkSupersedesNone(s, w, a);
    case CommitStep(w, a) => CommitIssued(s, w, a);
    case FailStep(w, a) => FailSupersedesNone(cfg, s, w, a);
    case EndStep(w, a) => EndSupersedesNone(s, w, a);
    case ReparseStep(r, a) => ReparseSupersedesNone(cfg, s, r, a);
    case _ =>
  }

  lemma CommitIssued(s: State, w: Worker, a: CommitAction)
    requires Inv(s) && CanCommit(s, w, a) && SupersededIssued(s)
    ensures SupersededIssued(Commit(s, w, a))
  {
    hide Commit;
    assert ProcessOk(s, w);
    CommitSupersedesIssued(s, w, a);
  }

  lemma {:induction false} RunKeepsIssued(cfg: Config, states: seq<State>, steps: seq<Step>, i: nat)
    requires Run(cfg, states, steps) && i < |states|
    ensures SupersededIssued(states[i])
    decreases i
  {
    if i > 0 {
      hide Inv, Enabled, Apply, SupersededIssued;
      RunKeepsIssued(cfg, states, steps, i - 1);
      RunKeeps(cfg, states, steps, i - 1);
      StepKeepsIssued(cfg, states[i - 1], steps[i - 1]);
    }
  }

  /** Recovery: wherever crashes have left an unfinished job, once the lock is free a fresh worker can take the lease at
      every time at which the marker, if any, has been left untouched long enough, and whatever valid outputs it then
      produces it can accept, without waiting any more; the directory ends without claim, staging, attempt counter or
      quarantine, and other actors' superseded outputs and backups stay. */
  lemma NoCrashWedgesTheJob(cfg: Config, states: seq<State>, history: seq<Step>, now: int, w: Worker, token: Token,
                            content: Output, receipt: Receipt)
    returns (claim: seq<Step>, leased: State, commit: seq<Step>, t: State)
    requires Run(cfg, states, history) && Validates(content, receipt)
    requires var s := states[|history|];
             s.lock.None? && s.dir.parsed.None? && !s.dir.failed && w !in s.processes && token !in s.issued
    requires var d := states[|history|].dir;
             d.processing.Some? ==> d.processing.value.modified + cfg.staleAfter <= now
    ensures Apply(cfg, states[|history|], TickStep(now)) == states[|history|].(clock := now)
    ensures Leads(cfg, states[|history|].(clock := now), claim, leased) && At(leased, w, Working) && Current(leased, w)
    ensures Leads(cfg, leased, commit, t)
    ensures t.dir == Accepted(states[|history|].dir, content, receipt)
    ensures t.lock.None? && token in t.committed && At(t, w, Done)
  {
    hide Leads, Validates;
    var s := states[|history|];
    RunKeepsIssued(cfg, states, history, |history|);
    claim, leased := ClaimSucceeds(cfg, s.(clock := now), w, token);
    commit, t := LeaseCommits(cfg, leased, w, token, content, receipt);
  }

  // ---------------------------------------------------------------- other ways back

  lemma TakeMore(cfg: Config, s0: State, steps0: seq<Step>, s: State, step: Step) returns (steps: seq<Step>, t: State)
    requires Reaches(cfg, s0, steps0, s) && Enabled(cfg, s, step)
    ensures t == Apply(cfg, s, step) && steps == steps0 + [step] && Reaches(cfg, s0, steps, t)
  {
    hide Reaches, Enabled, Apply;
    steps, t := steps0 + [step], Apply(cfg, s, step);
    OneStep(cfg, s, step);
    ReachesOn(cfg, s0, steps0, s, [step], t);
  }

  /** A commit that cannot move its outputs in puts the old ones back and leaves the directory as it was. */
  lemma FailedMoveRestores(cfg: Config, s: State, w: Worker, token: Token) returns (steps: seq<Step>, t: State)
    requires Unhindered(s, w, token) && s.processes[w].point.CommitMoveOld? && s.lock == Some(ByWorker(w))
    ensures Leads(cfg, s, steps, t) && t == s.(lock := None, processes := s.processes[w := s.processes[w].(point := Failing)])
  {
    hide Leads, Enabled, Apply;
    NoSteps(cfg, s);
    steps, t := TakeCommit(cfg, s, [], s, w, MoveOldAway);
    steps, t := TakeCommit(cfg, s, steps, t, w, MoveNewFails);
    steps, t := TakeCommit(cfg, s, steps, t, w, RestoreOld);
    assert t.dir.superseded == s.dir.superseded;
  }

  /** A failure is counted, the last one quarantines the job, and the worker leaves neither staging nor claim behind. */
  lemma FailureReleases(cfg: Config, s: State, w: Worker, token: Token) returns (steps: seq<Step>, t: State)
    requires Current(s, w) && s.processes[w].token == Some(token) && s.processes[w].point.Failing? && s.lock.None?
    ensures Leads(cfg, s, steps, t) && t.lock.None? && At(t, w, Done)
    ensures var count := FailureCount(s.dir) + 1;
            t.dir == s.dir.(attempts := Some(count), failed := s.dir.failed || cfg.retryCount < count,
                            staging := s.dir.staging - {token}, processing := None)
  {
    hide Leads;
    steps, t := FailureCounted(cfg, s, w);
    steps, t := StagingRemoved(cfg, s, steps, t, w, token);
    steps, t := Releases(cfg, s, steps, t, w);
  }

  lemma FailureCounted(cfg: Config, s: State, w: Worker) returns (steps: seq<Step>, t: State)
    requires Current(s, w) && s.processes[w].point.Failing? && s.lock.None?
    ensures Leads(cfg, s, steps, t)
    ensures var count := FailureCount(s.dir) + 1;
            t == s.(dir := s.dir.(attempts := Some(count), failed := s.dir.failed || cfg.retryCount < count),
                    processes := s.processes[w := s.processes[w].(point := Finishing)])
  {
    NoSteps(cfg, s);
    hide Leads, Enabled, Apply;
    steps, t := TakeFail(cfg, s, [], s, w, TakeFailLock);
    steps, t := TakeFail(cfg, s, steps, t, w, PassFailFence);
    steps, t := TakeFail(cfg, s, steps, t, w, CountFailure);
    if cfg.retryCount < FailureCount(s.dir) + 1 {
      steps, t := TakeFail(cfg, s, steps, t, w, WriteQuarantine);
    }
  }

  lemma StagingRemoved(cfg: Config, s0: State, steps0: seq<Step>, s: State, w: Worker, token: Token)
    returns (steps: seq<Step>, t: State)
    requires Leads(cfg, s0, steps0, s) && w in s.processes && s.processes[w].token == Some(token)
    requires s.processes[w].point.Finishing?
    ensures Leads(cfg, s0, steps, t)
    ensures t == s.(dir := s.dir.(staging := s.dir.staging - {token}),
                    processes := s.processes[w := s.processes[w].(point := Releasing)])
  {
    hide Leads, Enabled, Apply;
    steps, t := TakeEnd(cfg, s0, steps0, s, w, RemoveOwnStaging(true));
  }

  /** A forced worker takes the lease of an accepted or quarantined job too, and starts its accounting afresh. */
  lemma ForcedClaim(cfg: Config, s: State, w: Worker, token: Token) returns (steps: seq<Step>, t: State)
    requires s.lock.None? && (s.dir.processing.Some? ==> Abandoned(cfg, s))
    requires w !in s.processes && token !in s.issued && s.dir.staging == map[]
    ensures Reaches(cfg, s, steps, t) && At(t, w, Working) && Current(t, w) && t.lock.None?
    ensures t.dir == s.dir.(processing := t.dir.processing, parsed := None, failed := false, attempts := None)
  {
    NoSteps(cfg, s);
    hide Reaches, Stale;
    steps, t := ForcedStart(cfg, s, w);
    steps, t := ForcedClears(cfg, s, steps, t, w);
    steps, t := ForcedMarks(cfg, s, steps, t, w, token);
  }

  lemma ForcedMarks(cfg: Config, s0: State, steps0: seq<Step>, s: State, w: Worker, token: Token)
    returns (steps: seq<Step>, t: State)
    requires Reaches(cfg, s0, steps0, s) && At(s, w, CreateMarker)
    requires s.lock == Some(ByWorker(w)) && s.dir.processing.None? && token !in s.issued
    ensures Reaches(cfg, s0, steps, t) && At(t, w, Working) && Current(t, w) && t.lock.None?
    ensures t.dir == s.dir.(processing := t.dir.processing)
  {
    hide Reaches;
    steps, t := TakeMore(cfg, s0, steps0, s, ClaimStep(w, CreateEmptyMarker(token)));
    steps, t := TakeMore(cfg, s0, steps, t, ClaimStep(w, WriteToken));
  }

  lemma ForcedStart(cfg: Config, s: State, w: Worker) returns (steps: seq<Step>, t: State)
    requires s.lock.None? && (s.dir.processing.Some? ==> Abandoned(cfg, s)) && w !in s.processes && s.dir.staging == map[]
    ensures Reaches(cfg, s, steps, t)
    ensures t == s.(dir := s.dir.(processing := None), lock := Some(ByWorker(w)),
                    processes := s.processes[w := Process(true, ClaimDecide, None, None, {})])
  {
    NoSteps(cfg, s);
    hide Reaches;
    steps, t := TakeMore(cfg, s, [], s, SpawnStep(w, true));
    steps, t := TakeMore(cfg, s, steps, t, ClaimStep(w, TakeClaimLock));
    steps, t := TakeMore(cfg, s, steps, t, ClaimStep(w, if s.dir.processing.Some? then DisplaceStale else SeeFree));
    steps, t := TakeMore(cfg, s, steps, t, ClaimStep(w, OrphansSwept));
  }

  lemma ForcedClears(cfg: Config, s0: State, steps0: seq<Step>, s: State, w: Worker) returns (steps: seq<Step>, t: State)
    requires Reaches(cfg, s0, steps0, s) && At(s, w, ClaimDecide) && s.processes[w].force
    ensures Reaches(cfg, s0, steps, t)
    ensures t == s.(dir := s.dir.(parsed := None, failed := false, attempts := None), gaps := 0,
                    processes := s.processes[w := s.processes[w].(point := CreateMarker)])
  {
    hide Reaches;
    steps, t := TakeMore(cfg, s0, steps0, s, ClaimStep(w, ForceClearParsed));
    steps, t := TakeMore(cfg, s0, steps, t, ClaimStep(w, ForceClearFailed));
    steps, t := TakeMore(cfg, s0, steps, t, ClaimStep(w, ForceClearAttempts));
  }

  /** The reparse tool reopens a job: the acceptance is withdrawn first, and the old outputs move to the backups. */
  lemma ReparseReopens(cfg: Config, s: State, r: nat) returns (steps: seq<Step>, t: State)
    requires s.lock.None? && (s.dir.processing.Some? ==> Abandoned(cfg, s)) && s.dir.pharsed.Some? && r !in s.reparses
    ensures Reaches(cfg, s, steps, t) && t.lock.None? && t.processes == s.processes
    ensures t.dir == s.dir.(parsed := None, pharsed := None, backups := s.dir.backups + [s.dir.pharsed.value])
  {
    NoSteps(cfg, s);
    hide Reaches;
    steps, t := TakeMore(cfg, s, [], s, SpawnReparseStep(r));
    steps, t := TakeMore(cfg, s, steps, t, ReparseStep(r, TakeReparseLock));
    steps, t := TakeMore(cfg, s, steps, t, ReparseStep(r, Invalidate));
    steps, t := TakeMore(cfg, s, steps, t, ReparseStep(r, MoveToBackup));
  }

  // ---------------------------------------------------------------- the lost quarantine marker

  lemma FailurePassesFence(cfg: Config, s0: State, steps0: seq<Step>, s: State, w: Worker)
    returns (steps: seq<Step>, t: State)
    requires Leads(cfg, s0, steps0, s)
    requires At(s, w, Working) && Current(s, w) && s.lock.None?
    ensures Leads(cfg, s0, steps, t)
    ensures At(t, w, FailCount) && t.processes[w].token.Some?
    ensures t == s.(lock := Some(ByWorker(w)), processes := s.processes[w := t.processes[w]])
  {
    hide Leads, Enabled, Apply;
    steps, t := TakeWork(cfg, s0, steps0, s, w, RaiseError);
    steps, t := TakeFail(cfg, s0, steps, t, w, TakeFailLock);
    steps, t := TakeFail(cfg, s0, steps, t, w, PassFailFence);
  }

  /** A worker with the lease fails and counts its failure as the last one. */
  lemma CountsLastFailure(cfg: Config, s0: State, steps0: seq<Step>, s: State, w: Worker)
    returns (steps: seq<Step>, t: State)
    requires Leads(cfg, s0, steps0, s)
    requires At(s, w, Working) && Current(s, w) && s.lock.None? && cfg.retryCount < FailureCount(s.dir) + 1
    ensures Leads(cfg, s0, steps, t)
    ensures At(t, w, FailQuarantine)
    ensures t == s.(dir := s.dir.(attempts := Some(FailureCount(s.dir) + 1)), lock := Some(ByWorker(w)),
                    processes := s.processes[w := t.processes[w]])
  {
    hide Leads, Enabled, Apply;
    steps, t := FailurePassesFence(cfg, s0, steps0, s, w);
    steps, t := TakeFail(cfg, s0, steps, t, w, CountFailure);
  }

  /** A fresh worker takes the lease and counts a last failure. */
  lemma ClaimsAndCounts(cfg: Config, s: State, w: Worker, token: Token) returns (steps: seq<Step>, t: State)
    requires s.lock.None? && s.dir.parsed.None? && !s.dir.failed && (s.dir.processing.Some? ==> Abandoned(cfg, s))
    requires w !in s.processes && token !in s.issued && cfg.retryCount < FailureCount(s.dir) + 1
    ensures Leads(cfg, s, steps, t) && At(t, w, FailQuarantine)
    ensures var u := Leased(s, w, token);
            t == u.(dir := u.dir.(attempts := Some(FailureCount(s.dir) + 1)), lock := Some(ByWorker(w)),
                    processes := s.processes[w := t.processes[w]])
  {
    hide Leads, Abandoned;
    var u;
    steps, u := ClaimSucceeds(cfg, s, w, token);
    steps, t := CountsLastFailure(cfg, s, steps, u, w);
  }

  /** With no retries configured, a worker that dies between counting its failure and quarantining the job
      lets a second worker count beyond retries + 1. */
  lemma LostQuarantineCostsARetry() returns (cfg: Config, states: seq<State>, steps: seq<Step>)
    ensures Run(cfg, states, steps) && forall k | 0 <= k < |steps| :: Plain(steps[k])
    ensures FailureCount(states[|steps|].dir) == cfg.retryCount + 2
  {
    hide Reaches, Run;
    cfg := Config(1, 0);
    var s0 := State(ReadyDirectory, None, map[], map[], {}, {}, 0, 0);
    var steps1, s1 := ClaimsAndCounts(cfg, s0, 0, 0);
    var steps2, s2 := Take(cfg, s0, steps1, s1, CrashStep(0));
    var tick := TickStep(s2.dir.processing.value.modified + 1);
    var s3 := Apply(cfg, s2, tick);
    OneStep(cfg, s2, tick);
    ReachesOn(cfg, s0, steps2, s2, [tick], s3);
    var steps4, s4 := ClaimsAndCounts(cfg, s3, 1, 1);
    ReachesOn(cfg, s0, steps2 + [tick], s3, steps4, s4);
    steps := steps2 + [tick] + steps4;
    states := ReachesIsRun(cfg, s0, steps, s4);
  }
}
