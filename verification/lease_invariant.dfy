/** What every reachable state of the lease protocol satisfies: the acceptance marker names the outputs in place, the
    current token was handed out and until it commits no such marker exists, no two processes share a token, the
    lock is held by exactly the process at a locked control point, and each process finds at its control point
    what it relies on there. The lemmas follow the actors: claim, work, commit, fail, end, crash and reparse;
    each is split into what the actor itself relies on, what it leaves to the others, and the directory. */
module LeaseInvariant {
  import opened Options
  import opened LeaseModel

  /** The acceptance marker names the outputs actually in place. */
  predicate ParsedMatches(d: Directory) {
    d.parsed.Some? ==> d.pharsed.Some? && Validates(d.pharsed.value, d.parsed.value)
  }

  /** The current token has been handed out, and until it commits no acceptance marker exists. */
  predicate MarkerOk(s: State) {
    s.dir.processing.Some? && s.dir.processing.value.token.Some? ==>
      var t := s.dir.processing.value.token.value;
      t in s.issued && (t !in s.committed ==> s.dir.parsed.None?)
  }

  /** w holds a token that has not committed. */
  predicate Pending(s: State, w: Worker)
    requires w in s.processes
  {
    var t := s.processes[w].token;
    t.Some? && t.value !in s.committed
  }

  /** What process w may rely on at its control point. */
  predicate Reliance(s: State, w: Worker)
    requires w in s.processes
  {
    var p := s.processes[w];
    match p.point
    case Idle => p.token.None?
    case ClaimLocked => p.token.None?
    case ClaimSweep => p.token.None? && s.dir.processing.None?
    case ClaimDecide => p.token.None? && s.dir.processing.None?
    case ClearFailed => p.token.None? && s.dir.processing.None? && s.dir.parsed.None?
    case ClearAttempts => p.token.None? && s.dir.processing.None? && s.dir.parsed.None?
    case CreateMarker => p.token.None? && s.dir.processing.None? && s.dir.parsed.None?
    case WriteMarker =>
      Pending(s, w) && s.dir.processing.Some? && s.dir.processing.value.token.None? && s.dir.parsed.None?
    case Working => Pending(s, w)
    case Committing => Pending(s, w)
    case CommitLocked => Pending(s, w)
    case CommitSweep => Pending(s, w) && Current(s, w)
    case CommitValidate => Pending(s, w) && Current(s, w)
    case CommitMoveOld => Pending(s, w) && Current(s, w)
    case CommitMoveNew => Pending(s, w) && Current(s, w)
    case CommitRestore => Pending(s, w) && Current(s, w)
    case CommitRecheck => Pending(s, w) && Current(s, w)
    case CommitDropAttempts => Pending(s, w) && Current(s, w) && Recognised(s, w)
    case CommitDropFailed => Pending(s, w) && Current(s, w) && Recognised(s, w)
    case CommitMark => Pending(s, w) && Current(s, w) && Recognised(s, w)
    case CommitTidy => Current(s, w)
    case FailCount => Current(s, w)
    case FailQuarantine => Current(s, w)
    case ReleaseUnlink => Current(s, w)
    case _ => true
  }

  /** The outputs in place are those w is about to announce. */
  predicate Recognised(s: State, w: Worker)
    requires w in s.processes
  {
    var receipt := s.processes[w].receipt;
    receipt.Some? && s.dir.pharsed.Some? && Validates(s.dir.pharsed.value, receipt.value)
  }

  predicate ProcessOk(s: State, w: Worker)
    requires w in s.processes
  {
    && (Holding(s.processes[w].point) <==> s.lock == Some(ByWorker(w)))
    && (s.processes[w].token.Some? ==> s.processes[w].token.value in s.issued)
    && Reliance(s, w)
  }

  predicate ReparseOk(s: State, r: nat)
    requires r in s.reparses
  {
    && (s.reparses[r].ReparseInvalidate? || s.reparses[r].ReparseMove? <==> s.lock == Some(ByReparse(r)))
    && (s.reparses[r].ReparseMove? ==> s.dir.parsed.None?)
  }

  /** No two processes ever hold the same token. */
  predicate TokensDistinct(s: State) {
    forall v, w | v in s.processes && w in s.processes && v != w && s.processes[v].token.Some? ::
      s.processes[v].token != s.processes[w].token
  }

  /** The holder of the lock exists. */
  predicate LockOk(s: State) {
    match s.lock
    case None => true
    case Some(ByWorker(w)) => w in s.processes
    case Some(ByReparse(r)) => r in s.reparses
  }

  ghost predicate Inv(s: State) {
    && ParsedMatches(s.dir)
    && MarkerOk(s)
    && s.committed <= s.issued
    && TokensDistinct(s)
    && LockOk(s)
    && (forall w | w in s.processes :: ProcessOk(s, w))
    && (forall r | r in s.reparses :: ReparseOk(s, r))
  }

  /** s' comes from a step of w: only w's own process entry changes, the lock moves between free and w, only
      w's token can commit, and while another actor holds the lock only staging directories change. */
  predicate OwnStep(s: State, s': State, w: Worker) {
    && w in s.processes && w in s'.processes
    && s'.processes == s.processes[w := s'.processes[w]]
    && s'.reparses == s.reparses
    && (s'.lock == s.lock || (s.lock.None? && s'.lock == Some(ByWorker(w))) || (s.lock == Some(ByWorker(w)) && s'.lock.None?))
    && s.issued <= s'.issued
    && (s'.committed == s.committed
        || (s.processes[w].token.Some? && s'.committed == s.committed + {s.processes[w].token.value}))
    && (s.lock.Some? && s.lock != Some(ByWorker(w)) ==> s'.dir == s.dir.(staging := s'.dir.staging))
  }

  /** A step of w leaves what every other actor relies on. */
  lemma OthersKept(s: State, s': State, w: Worker)
    requires Inv(s) && OwnStep(s, s', w)
    ensures forall v | v in s'.processes && v != w :: ProcessOk(s', v)
    ensures forall r | r in s'.reparses :: ReparseOk(s', r)
  {
    forall v | v in s'.processes && v != w ensures ProcessOk(s', v) {
      assert ProcessOk(s, v) && s'.processes[v] == s.processes[v];
      assert s.processes[w].token.Some? ==> s.processes[v].token != s.processes[w].token;
    }
    forall r | r in s'.reparses ensures ReparseOk(s', r) {
      assert ReparseOk(s, r);
    }
  }

  /** Keeping a token keeps all tokens distinct. */
  lemma DistinctKept(s: State, s': State, w: Worker)
    requires TokensDistinct(s) && w in s.processes && w in s'.processes
    requires s'.processes == s.processes[w := s'.processes[w]]
    requires s'.processes[w].token == s.processes[w].token
    ensures TokensDistinct(s')
  {
    forall u, v | u in s'.processes && v in s'.processes && u != v && s'.processes[u].token.Some?
      ensures s'.processes[u].token != s'.processes[v].token
    {
      assert s'.processes[u].token == s.processes[u].token && s'.processes[v].token == s.processes[v].token;
    }
  }

  lemma ClaimOwn(cfg: Config, s: State, w: Worker, a: ClaimAction)
    requires CanClaim(cfg, s, w, a) && s.committed <= s.issued && ProcessOk(s, w)
    ensures ProcessOk(Claim(cfg, s, w, a), w)
  {
  }

  lemma ClaimFrame(cfg: Config, s: State, w: Worker, a: ClaimAction)
    requires CanClaim(cfg, s, w, a) && ProcessOk(s, w)
    ensures var s' := Claim(cfg, s, w, a);
            && OwnStep(s, s', w)
            && s'.processes[w].token == (if a.CreateEmptyMarker? then Some(a.chosen) else s.processes[w].token)
            && (a.CreateEmptyMarker? ==> a.chosen !in s.issued)
  {
  }

  lemma ClaimDirectory(cfg: Config, s: State, w: Worker, a: ClaimAction)
    requires CanClaim(cfg, s, w, a) && ProcessOk(s, w) && ParsedMatches(s.dir) && MarkerOk(s) && s.committed <= s.issued
    ensures var s' := Claim(cfg, s, w, a); ParsedMatches(s'.dir) && MarkerOk(s') && s'.committed <= s'.issued
  {
  }

  lemma ClaimKeeps(cfg: Config, s: State, w: Worker, a: ClaimAction)
    requires Inv(s) && CanClaim(cfg, s, w, a)
    ensures Inv(Claim(cfg, s, w, a)) && OwnStep(s, Claim(cfg, s, w, a), w)
  {
    assert w in s.processes;
    hide CanClaim, Claim, ParsedMatches, MarkerOk, Reliance, Holding;
    var s' := Claim(cfg, s, w, a);
    assert ProcessOk(s, w);
    ClaimOwn(cfg, s, w, a);
    ClaimFrame(cfg, s, w, a);
    ClaimDirectory(cfg, s, w, a);
    OthersKept(s, s', w);
    if a.CreateEmptyMarker? {
      forall u, v | u in s'.processes && v in s'.processes && u != v && s'.processes[u].token.Some?
        ensures s'.processes[u].token != s'.processes[v].token
      {
        assert ProcessOk(s, u) && ProcessOk(s, v);
      }
    } else {
      DistinctKept(s, s', w);
    }
  }

  lemma WorkOwn(s: State, w: Worker, a: WorkAction)
    requires CanWork(s, w, a) && s.committed <= s.issued && ProcessOk(s, w)
    ensures ProcessOk(Work(s, w, a), w)
  {
  }

  lemma WorkFrame(s: State, w: Worker, a: WorkAction)
    requires CanWork(s, w, a) && ProcessOk(s, w)
    ensures var s' := Work(s, w, a);
            && OwnStep(s, s', w)
            && s'.processes[w].token == s.processes[w].token
  {
  }

  lemma WorkDirectory(s: State, w: Worker, a: WorkAction)
    requires CanWork(s, w, a) && ProcessOk(s, w) && ParsedMatches(s.dir) && MarkerOk(s) && s.committed <= s.issued
    ensures var s' := Work(s, w, a); ParsedMatches(s'.dir) && MarkerOk(s') && s'.committed <= s'.issued
  {
  }

  lemma WorkKeeps(s: State, w: Worker, a: WorkAction)
    requires Inv(s) && CanWork(s, w, a)
    ensures Inv(Work(s, w, a)) && OwnStep(s, Work(s, w, a), w)
  {
    assert w in s.processes;
    hide CanWork, Work, ParsedMatches, MarkerOk, Reliance, Holding;
    var s' := Work(s, w, a);
    assert ProcessOk(s, w);
    WorkOwn(s, w, a);
    WorkFrame(s, w, a);
    WorkDirectory(s, w, a);
    OthersKept(s, s', w);
    DistinctKept(s, s', w);
  }

  lemma CommitReliance(s: State, w: Worker, a: CommitAction)
    requires CanCommit(s, w, a) && Reliance(s, w)
    ensures Reliance(Commit(s, w, a), w)
  {
  }

  lemma CommitOwn(s: State, w: Worker, a: CommitAction)
    requires CanCommit(s, w, a) && s.committed <= s.issued && ProcessOk(s, w)
    ensures ProcessOk(Commit(s, w, a), w)
  {
    CommitReliance(s, w, a);
    hide Reliance;
  }

  lemma CommitFrame(s: State, w: Worker, a: CommitAction)
    requires CanCommit(s, w, a) && ProcessOk(s, w)
    ensures var s' := Commit(s, w, a);
            && OwnStep(s, s', w)
            && s'.processes[w].token == s.processes[w].token
  {
  }

  lemma CommitDirectory(s: State, w: Worker, a: CommitAction)
    requires CanCommit(s, w, a) && ProcessOk(s, w) && ParsedMatches(s.dir) && MarkerOk(s) && s.committed <= s.issued
    ensures var s' := Commit(s, w, a); ParsedMatches(s'.dir) && MarkerOk(s') && s'.committed <= s'.issued
  {
  }

  lemma CommitKeeps(s: State, w: Worker, a: CommitAction)
    requires Inv(s) && CanCommit(s, w, a)
    ensures Inv(Commit(s, w, a)) && OwnStep(s, Commit(s, w, a), w)
  {
    assert w in s.processes;
    hide CanCommit, Commit, ParsedMatches, MarkerOk, Reliance, Holding;
    var s' := Commit(s, w, a);
    assert ProcessOk(s, w);
    CommitOwn(s, w, a);
    CommitFrame(s, w, a);
    CommitDirectory(s, w, a);
    OthersKept(s, s', w);
    DistinctKept(s, s', w);
  }

  lemma FailOwn(cfg: Config, s: State, w: Worker, a: FailAction)
    requires CanFail(s, w, a) && s.committed <= s.issued && ProcessOk(s, w)
    ensures ProcessOk(Fail(cfg, s, w, a), w)
  {
  }

  lemma FailFrame(cfg: Config, s: State, w: Worker, a: FailAction)
    requires CanFail(s, w, a) && ProcessOk(s, w)
    ensures var s' := Fail(cfg, s, w, a);
            && OwnStep(s, s', w)
            && s'.processes[w].token == s.processes[w].token
  {
  }

  lemma FailDirectory(cfg: Config, s: State, w: Worker, a: FailAction)
    requires CanFail(s, w, a) && ProcessOk(s, w) && ParsedMatches(s.dir) && MarkerOk(s) && s.committed <= s.issued
    ensures var s' := Fail(cfg, s, w, a); ParsedMatches(s'.dir) && MarkerOk(s') && s'.committed <= s'.issued
  {
  }

  lemma FailKeeps(cfg: Config, s: State, w: Worker, a: FailAction)
    requires Inv(s) && CanFail(s, w, a)
    ensures Inv(Fail(cfg, s, w, a)) && OwnStep(s, Fail(cfg, s, w, a), w)
  {
    assert w in s.processes;
    hide CanFail, Fail, ParsedMatches, MarkerOk, Reliance, Holding;
    var s' := Fail(cfg, s, w, a);
    assert ProcessOk(s, w);
    FailOwn(cfg, s, w, a);
    FailFrame(cfg, s, w, a);
    FailDirectory(cfg, s, w, a);
    OthersKept(s, s', w);
    DistinctKept(s, s', w);
  }

  lemma EndOwn(s: State, w: Worker, a: EndAction)
    requires CanEnd(s, w, a) && s.committed <= s.issued && ProcessOk(s, w)
    ensures ProcessOk(End(s, w, a), w)
  {
  }

  lemma EndFrame(s: State, w: Worker, a: EndAction)
    requires CanEnd(s, w, a) && ProcessOk(s, w)
    ensures var s' := End(s, w, a);
            && OwnStep(s, s', w)
            && s'.processes[w].token == s.processes[w].token
  {
  }

  lemma EndDirectory(s: State, w: Worker, a: EndAction)
    requires CanEnd(s, w, a) && ProcessOk(s, w) && ParsedMatches(s.dir) && MarkerOk(s) && s.committed <= s.issued
    ensures var s' := End(s, w, a); ParsedMatches(s'.dir) && MarkerOk(s') && s'.committed <= s'.issued
  {
  }

  lemma EndKeeps(s: State, w: Worker, a: EndAction)
    requires Inv(s) && CanEnd(s, w, a)
    ensures Inv(End(s, w, a)) && OwnStep(s, End(s, w, a), w)
  {
    assert w in s.processes;
    hide CanEnd, End, ParsedMatches, MarkerOk, Reliance, Holding;
    var s' := End(s, w, a);
    assert ProcessOk(s, w);
    EndOwn(s, w, a);
    EndFrame(s, w, a);
    EndDirectory(s, w, a);
    OthersKept(s, s', w);
    DistinctKept(s, s', w);
  }

  lemma CrashKeeps(cfg: Config, s: State, w: Worker)
    requires Inv(s) && Enabled(cfg, s, CrashStep(w))
    ensures Inv(Apply(cfg, s, CrashStep(w))) && OwnStep(s, Apply(cfg, s, CrashStep(w)), w)
  {
    var s' := Apply(cfg, s, CrashStep(w));
    assert ProcessOk(s, w);
    OthersKept(s, s', w);
    DistinctKept(s, s', w);
  }

  lemma ReparseKeeps(cfg: Config, s: State, r: nat, a: ReparseAction)
    requires Inv(s) && CanReparse(cfg, s, r, a)
    ensures Inv(Reparse(cfg, s, r, a))
  {
    var s' := Reparse(cfg, s, r, a);
    assert ReparseOk(s, r);
    forall w | w in s'.processes ensures ProcessOk(s', w) {
      assert ProcessOk(s, w);
    }
    forall q | q in s'.reparses ensures ReparseOk(s', q) {
      assert ReparseOk(s, q);
    }
    assert TokensDistinct(s');
  }

  lemma SpawnKeeps(cfg: Config, s: State, step: Step)
    requires Inv(s) && Enabled(cfg, s, step)
    requires step.SpawnStep? || step.SpawnReparseStep? || step.TickStep?
    ensures Inv(Apply(cfg, s, step))
  {
    var s' := Apply(cfg, s, step);
    forall w | w in s'.processes ensures ProcessOk(s', w) {
      assert w in s.processes ==> ProcessOk(s, w);
    }
    forall r | r in s'.reparses ensures ReparseOk(s', r) {
      assert r in s.reparses ==> ReparseOk(s, r);
    }
    assert TokensDistinct(s');
  }

  lemma StepKeeps(cfg: Config, s: State, step: Step)
    requires Inv(s) && Enabled(cfg, s, step)
    ensures Inv(Apply(cfg, s, step))
  {
    match step
    case ClaimStep(w, a) => ClaimKeeps(cfg, s, w, a);
    case WorkStep(w, a) => WorkKeeps(s, w, a);
    case CommitStep(w, a) => CommitKeeps(s, w, a);
    case FailStep(w, a) => FailKeeps(cfg, s, w, a);
    case EndStep(w, a) => EndKeeps(s, w, a);
    case CrashStep(w) => CrashKeeps(cfg, s, w);
    case ReparseStep(r, a) => ReparseKeeps(cfg, s, r, a);
    case _ => SpawnKeeps(cfg, s, step);
  }

  lemma {:induction false} RunKeeps(cfg: Config, states: seq<State>, steps: seq<Step>, i: nat)
    requires Run(cfg, states, steps) && i < |states|
    ensures Inv(states[i])
    decreases i
  {
    if i > 0 {
      RunKeeps(cfg, states, steps, i - 1);
      StepKeeps(cfg, states[i - 1], steps[i - 1]);
    }
  }
}
