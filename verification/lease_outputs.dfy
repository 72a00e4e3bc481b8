/** Only outputs that were recognised take the place of the old ones. */
module LeaseOutputs {
  import opened Options
  import opened LeaseModel
  import opened LeaseInvariant

  predicate Moving(point: Point) {
    point.CommitMoveOld? || point.CommitMoveNew?
  }

  /** What w is about to move in, as long as it is there, is what its parse expects. */
  predicate Recognises(s: State, w: Worker)
    requires w in s.processes
  {
    var p := s.processes[w];
    Moving(p.point) && p.token.Some? && p.token.value in s.dir.staging ==>
      p.receipt.Some? && Validates(s.dir.staging[p.token.value], p.receipt.value)
  }

  predicate AllRecognise(s: State) {
    forall w | w in s.processes :: Recognises(s, w)
  }

  /** A step of v puts nothing in the staging directory of another token. */
  predicate StagesOwn(s: State, s': State, v: Worker)
    requires v in s.processes
  {
    forall t | t in s'.dir.staging ::
      (t in s.dir.staging && s'.dir.staging[t] == s.dir.staging[t]) || Some(t) == s.processes[v].token
  }

  lemma ClaimStages(cfg: Config, s: State, v: Worker, a: ClaimAction)
    requires CanClaim(cfg, s, v, a)
    ensures StagesOwn(s, Claim(cfg, s, v, a), v) && !Moving(Claim(cfg, s, v, a).processes[v].point)
  {
  }

  lemma WorkStages(s: State, v: Worker, a: WorkAction)
    requires CanWork(s, v, a) && Recognises(s, v)
    ensures StagesOwn(s, Work(s, v, a), v) && v in Work(s, v, a).processes && Recognises(Work(s, v, a), v)
  {
  }

  lemma CommitStages(s: State, v: Worker, a: CommitAction)
    requires CanCommit(s, v, a) && Recognises(s, v)
    ensures StagesOwn(s, Commit(s, v, a), v) && v in Commit(s, v, a).processes && Recognises(Commit(s, v, a), v)
  {
  }

  lemma FailStages(cfg: Config, s: State, v: Worker, a: FailAction)
    requires CanFail(s, v, a)
    ensures StagesOwn(s, Fail(cfg, s, v, a), v) && v in Fail(cfg, s, v, a).processes
    ensures !Moving(Fail(cfg, s, v, a).processes[v].point)
  {
  }

  lemma EndStages(s: State, v: Worker, a: EndAction)
    requires CanEnd(s, v, a)
    ensures StagesOwn(s, End(s, v, a), v) && v in End(s, v, a).processes && !Moving(End(s, v, a).processes[v].point)
  {
  }

  lemma ReparseStages(cfg: Config, s: State, r: nat, a: ReparseAction)
    requires CanReparse(cfg, s, r, a)
    ensures Reparse(cfg, s, r, a).dir.staging == s.dir.staging && Reparse(cfg, s, r, a).processes == s.processes
  {
  }

  /** The others' staging directories are untouched or gone. */
  lemma OthersRecognise(s: State, s': State, v: Worker)
    requires AllRecognise(s) && TokensDistinct(s) && v in s.processes && v in s'.processes && StagesOwn(s, s', v)
    requires s'.processes == s.processes[v := s'.processes[v]] && Recognises(s', v)
    ensures AllRecognise(s')
  {
    forall w | w in s'.processes ensures Recognises(s', w) {
      if w != v {
        assert Recognises(s, w) && s'.processes[w] == s.processes[w];
        assert s.processes[w].token.Some? ==> s.processes[w].token != s.processes[v].token;
      }
    }
  }

  lemma StepRecognises(cfg: Config, s: State, step: Step)
    requires Inv(s) && AllRecognise(s) && Enabled(cfg, s, step)
    ensures AllRecognise(Apply(cfg, s, step))
  {
    assert TokensDistinct(s);
    hide Claim, Work, Commit, Fail, End, Reparse, CanClaim, CanWork, CanCommit, CanFail, CanEnd, CanReparse,
         AllRecognise, StagesOwn, Inv, TokensDistinct, Moving;
    var s' := Apply(cfg, s, step);
    match step
    case ClaimStep(v, a) =>
      ClaimKeeps(cfg, s, v, a);
      ClaimStages(cfg, s, v, a);
      OthersRecognise(s, s', v);
    case WorkStep(v, a) =>
      WorkKeeps(s, v, a);
      OneRecognises(s, v);
      WorkStages(s, v, a);
      OthersRecognise(s, s', v);
    case CommitStep(v, a) =>
      CommitKeeps(s, v, a);
      OneRecognises(s, v);
      CommitStages(s, v, a);
      OthersRecognise(s, s', v);
    case FailStep(v, a) =>
      FailKeeps(cfg, s, v, a);
      FailStages(cfg, s, v, a);
      OthersRecognise(s, s', v);
    case EndStep(v, a) =>
      EndKeeps(s, v, a);
      EndStages(s, v, a);
      OthersRecognise(s, s', v);
    case ReparseStep(r, a) =>
      ReparseStages(cfg, s, r, a);
      SameRecognise(s, s');
    case CrashStep(v) => StoppedRecognises(s, s', v);
    case SpawnStep(v, _) => StoppedRecognises(s, s', v);
    case _ => SameRecognise(s, s');
  }

  lemma OneRecognises(s: State, w: Worker)
    requires AllRecognise(s) && w in s.processes
    ensures Recognises(s, w)
  {
  }

  lemma SameRecognise(s: State, s': State)
    requires AllRecognise(s) && s'.dir.staging == s.dir.staging && s'.processes == s.processes
    ensures AllRecognise(s')
  {
    forall w | w in s'.processes ensures Recognises(s', w) {
      assert Recognises(s, w);
    }
  }

  lemma StoppedRecognises(s: State, s': State, v: Worker)
    requires AllRecognise(s) && s'.dir.staging == s.dir.staging && v in s'.processes
    requires s'.processes == s.processes[v := s'.processes[v]] && (s'.processes[v].point.Crashed? || s'.processes[v].point.Idle?)
    ensures AllRecognise(s')
  {
    forall w | w in s'.processes ensures Recognises(s', w) {
      if w != v {
        assert Recognises(s, w);
      }
    }
  }

  lemma {:induction false} RunRecognises(cfg: Config, states: seq<State>, steps: seq<Step>, i: nat)
    requires Run(cfg, states, steps) && i < |states|
    ensures AllRecognise(states[i])
  {
    if i > 0 {
      hide Inv, Enabled, Apply, AllRecognise;
      RunRecognises(cfg, states, steps, i - 1);
      RunKeeps(cfg, states, steps, i - 1);
      StepRecognises(cfg, states[i - 1], steps[i - 1]);
    }
  }

  /** In every run the outputs that a commit moves in are those its parse expects: nothing else ever replaces the old. */
  lemma OnlyRecognisedMovesIn(cfg: Config, states: seq<State>, steps: seq<Step>, k: nat)
    requires Run(cfg, states, steps) && k < |steps| && steps[k].CommitStep? && steps[k].commit.MoveNewIn?
    ensures var receipt := states[k].processes[steps[k].worker].receipt;
            receipt.Some? && states[k + 1].dir.pharsed.Some? && Validates(states[k + 1].dir.pharsed.value, receipt.value)
  {
    RunRecognises(cfg, states, steps, k);
    assert Recognises(states[k], steps[k].worker);
  }
}
