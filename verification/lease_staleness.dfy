/** A lease is safe while it is young: only its owner ends it, and only an old one is taken over. */
module LeaseStaleness {
  import opened Options
  import opened LeaseModel
  import opened LeaseInvariant
  import opened LeaseTheorems

  /** The marker has not been touched for the configured time. */
  predicate Abandoned(cfg: Config, s: State)
    requires s.dir.processing.Some?
  {
    s.dir.processing.value.modified + cfg.staleAfter <= s.clock
  }

  /** The step takes the marker away or puts another worker's token in it. */
  predicate EndsLease(s: State, s': State)
    requires s.dir.processing.Some?
  {
    s'.dir.processing.None? || s'.dir.processing.value.token != s.dir.processing.value.token
  }

  /** The owner releases the job, or completes the marker it has just created. */
  predicate ByOwner(s: State, step: Step) {
    || (step.EndStep? && step.end.UnlinkMarker? && Current(s, step.worker))
    || (step.ClaimStep? && step.claim.WriteToken? && s.dir.processing.Some? && s.dir.processing.value.token.None?)
  }

  lemma ClaimEndsLease(cfg: Config, s: State, w: Worker, a: ClaimAction)
    requires CanClaim(cfg, s, w, a) && Reliance(s, w) && s.dir.processing.Some? && EndsLease(s, Claim(cfg, s, w, a))
    ensures ByOwner(s, ClaimStep(w, a)) || Abandoned(cfg, s)
  {
  }

  lemma WorkEndsNone(s: State, w: Worker, a: WorkAction)
    requires CanWork(s, w, a) && s.dir.processing.Some?
    ensures !EndsLease(s, Work(s, w, a))
  {
  }

  lemma CommitEndsNone(s: State, w: Worker, a: CommitAction)
    requires CanCommit(s, w, a) && s.dir.processing.Some?
    ensures !EndsLease(s, Commit(s, w, a))
  {
  }

  lemma FailEndsNone(cfg: Config, s: State, w: Worker, a: FailAction)
    requires CanFail(s, w, a) && s.dir.processing.Some?
    ensures !EndsLease(s, Fail(cfg, s, w, a))
  {
  }

  lemma EndEndsLease(s: State, w: Worker, a: EndAction)
    requires CanEnd(s, w, a) && Reliance(s, w) && s.dir.processing.Some? && EndsLease(s, End(s, w, a))
    ensures ByOwner(s, EndStep(w, a))
  {
  }

  lemma ReparseEndsNone(cfg: Config, s: State, r: nat, a: ReparseAction)
    requires CanReparse(cfg, s, r, a) && s.dir.processing.Some?
    ensures !EndsLease(s, Reparse(cfg, s, r, a))
  {
  }

  lemma StepEndsLease(cfg: Config, s: State, step: Step)
    requires Inv(s) && Enabled(cfg, s, step) && s.dir.processing.Some? && EndsLease(s, Apply(cfg, s, step))
    ensures ByOwner(s, step) || Abandoned(cfg, s)
  {
    hide Claim, Work, Commit, Fail, End, Reparse, CanClaim, CanWork, CanCommit, CanFail, CanEnd, CanReparse,
         Abandoned, ByOwner, Reliance;
    match step
    case ClaimStep(w, a) =>
      ActorIsProcess(cfg, s, step);
      assert ProcessOk(s, w);
      ClaimEndsLease(cfg, s, w, a);
    case WorkStep(w, a) => WorkEndsNone(s, w, a);
    case CommitStep(w, a) => CommitEndsNone(s, w, a);
    case FailStep(w, a) => FailEndsNone(cfg, s, w, a);
    case EndStep(w, a) =>
      ActorIsProcess(cfg, s, step);
      assert ProcessOk(s, w);
      EndEndsLease(s, w, a);
    case ReparseStep(r, a) => ReparseEndsNone(cfg, s, r, a);
    case _ =>
  }

  lemma ActorIsProcess(cfg: Config, s: State, step: Step)
    requires Enabled(cfg, s, step) && (step.ClaimStep? || step.EndStep?)
    ensures step.worker in s.processes
  {
  }

  /** In every run a marker disappears or changes hands only by its owner or after the configured time without a
      sign of life. */
  lemma TakenOverOnlyWhenAbandoned(cfg: Config, states: seq<State>, steps: seq<Step>, k: nat)
    requires Run(cfg, states, steps) && k < |steps|
    requires states[k].dir.processing.Some? && EndsLease(states[k], states[k + 1])
    ensures ByOwner(states[k], steps[k]) || Abandoned(cfg, states[k])
  {
    hide Inv, Enabled, Apply, EndsLease, ByOwner, Abandoned;
    RunKeeps(cfg, states, steps, k);
    StepEndsLease(cfg, states[k], steps[k]);
  }

  /** A worker that meets a marker is turned away exactly if the marker is young, and may displace it exactly if it is
      not; the reparse tool waits likewise. */
  lemma AgeDecides(cfg: Config, s: State, w: Worker, r: nat)
    requires s.dir.processing.Some?
    ensures At(s, w, ClaimLocked) ==>
              && (CanClaim(cfg, s, w, SeeBusy) <==> !Abandoned(cfg, s))
              && (CanClaim(cfg, s, w, DisplaceStale) <==> Abandoned(cfg, s))
              && !CanClaim(cfg, s, w, SeeFree)
    ensures CanReparse(cfg, s, r, TakeReparseLock) ==> Abandoned(cfg, s)
    ensures r in s.reparses && s.reparses[r].ReparseIdle? && s.lock.None? && Abandoned(cfg, s) ==>
              CanReparse(cfg, s, r, TakeReparseLock)
  {
  }

  // ---------------------------------------------------------------- a living worker keeps its lease

  /** Outside the creation of its marker a worker's token never changes. */
  lemma ClaimKeepsToken(cfg: Config, s: State, w: Worker, a: ClaimAction)
    requires CanClaim(cfg, s, w, a) && Reliance(s, w) && s.processes[w].token.Some?
    ensures w in Claim(cfg, s, w, a).processes && Claim(cfg, s, w, a).processes[w].token == s.processes[w].token
  {
  }

  lemma TokenKept(cfg: Config, s: State, step: Step, w: Worker)
    requires Inv(s) && Enabled(cfg, s, step) && w in s.processes && s.processes[w].token.Some?
    ensures w in Apply(cfg, s, step).processes && Apply(cfg, s, step).processes[w].token == s.processes[w].token
  {
    hide Claim, Work, Commit, Fail, End, CanClaim, CanWork, CanCommit, CanFail, CanEnd, Reliance;
    assert ProcessOk(s, w);
    match step
    case ClaimStep(v, a) =>
      ClaimKeeps(cfg, s, v, a);
      if v == w {
        ClaimKeepsToken(cfg, s, w, a);
      }
    case WorkStep(v, a) =>
      WorkKeeps(s, v, a);
      assert ProcessOk(s, v);
      WorkFrame(s, v, a);
    case CommitStep(v, a) =>
      CommitKeeps(s, v, a);
      assert ProcessOk(s, v);
      CommitFrame(s, v, a);
    case FailStep(v, a) =>
      FailKeeps(cfg, s, v, a);
      assert ProcessOk(s, v);
      FailFrame(cfg, s, v, a);
    case EndStep(v, a) =>
      EndKeeps(s, v, a);
      assert ProcessOk(s, v);
      EndFrame(s, v, a);
    case _ =>
  }

  lemma CurrentStep(cfg: Config, s: State, step: Step, w: Worker)
    requires Inv(s) && Enabled(cfg, s, step) && Current(s, w)
    requires !Abandoned(cfg, s) && step != EndStep(w, UnlinkMarker)
    ensures Current(Apply(cfg, s, step), w)
  {
    TokenKept(cfg, s, step, w);
    assert TokensDistinct(s);
    hide Inv, Enabled, Apply, TokensDistinct, Abandoned;
    if EndsLease(s, Apply(cfg, s, step)) {
      StepEndsLease(cfg, s, step);
      OneOwner(s, w, step.worker);
      assert false;
    }
  }

  lemma OneOwner(s: State, v: Worker, w: Worker)
    requires TokensDistinct(s) && Current(s, v) && Current(s, w)
    ensures v == w
  {
  }

  /** A worker whose marker is never left untouched for the configured time keeps its lease until it releases it,
      whatever the other workers, crashes and the reparse tool do. */
  lemma {:induction false} YoungLeaseIsKept(cfg: Config, states: seq<State>, steps: seq<Step>, i: nat, j: nat, w: Worker)
    requires Run(cfg, states, steps) && i <= j < |states| && Current(states[i], w)
    requires forall k | i <= k < j :: states[k].dir.processing.Some? ==> !Abandoned(cfg, states[k])
    requires forall k | i <= k < j :: steps[k] != EndStep(w, UnlinkMarker)
    ensures Current(states[j], w)
    decreases j
  {
    hide Inv, Enabled, Apply, Abandoned, Init;
    if i < j {
      YoungLeaseIsKept(cfg, states, steps, i, j - 1, w);
      RunKeeps(cfg, states, steps, j - 1);
      CurrentStep(cfg, states[j - 1], steps[j - 1], w);
    }
  }

  /** A heartbeat keeps the lease young for the whole configured time. */
  lemma HeartbeatRenews(cfg: Config, s: State, w: Worker)
    requires CanWork(s, w, Heartbeat)
    ensures var t := Work(s, w, Heartbeat);
            Current(t, w) && forall now | now < s.clock + cfg.staleAfter :: !Abandoned(cfg, t.(clock := now))
  {
  }
}
