/** The parser's lease protocol over one ready job directory. Every action changes the directory at most
    once, so a crash between two actions is a crash between two filesystem operations. */
module LeaseModel {
  import opened Options

  type Token = nat
  type Worker = nat

  /** A PHARSED or staging directory: the hash of parsed.json, the document count recorded there, and
      whether every referenced output is present with its recorded hash. */
  datatype Output = Output(metadataHash: nat, documentCount: nat, authentic: bool)

  /** What a completed parse expects its outputs to be; also the contents of .parsed. */
  datatype Receipt = Receipt(metadataHash: nat, documentCount: nat)

  /** The authentication of an output directory. */
  predicate Validates(o: Output, r: Receipt) {
    o.authentic && o.metadataHash == r.metadataHash && o.documentCount == r.documentCount
  }

  /** .processing; the token is missing while the file has been created but not yet written. */
  datatype Marker = Marker(token: Option<Token>, modified: int)

  datatype Directory = Directory(
    processing: Option<Marker>,
    parsed: Option<Receipt>,
    attempts: Option<nat>,
    failed: bool,
    pharsed: Option<Output>,
    staging: map<Token, Output>,
    superseded: map<Token, Output>,
    backups: seq<Output>)

  /** Control points of process_job. */
  datatype Point =
    // claiming, under the lock from ClaimLocked to WriteMarker
    | Idle
    | ClaimLocked
    | ClaimSweep
    | ClaimDecide
    | ClearFailed
    | ClearAttempts
    | CreateMarker
    | WriteMarker
    // parsing, without the lock
    | Working
    | Committing
    // committing, under the lock
    | CommitLocked
    | CommitSweep
    | CommitValidate
    | CommitMoveOld
    | CommitMoveNew
    | CommitRestore
    | CommitRecheck
    | CommitDropAttempts
    | CommitDropFailed
    | CommitMark
    | CommitTidy
    // failing; FailLocked to FailQuarantine under the lock
    | Failing
    | FailLocked
    | FailCount
    | FailQuarantine
    // cleaning up; ReleaseLocked and ReleaseUnlink under the lock
    | Finishing
    | Releasing
    | ReleaseLocked
    | ReleaseUnlink
    | Done
    | Crashed

  datatype Process = Process(force: bool, point: Point, token: Option<Token>, receipt: Option<Receipt>, todo: set<Token>)

  datatype ReparsePoint = ReparseIdle | ReparseInvalidate | ReparseMove | ReparseDone

  datatype Holder = ByWorker(worker: Worker) | ByReparse(reparse: nat)

  /** committed: the tokens that wrote .parsed; gaps: how often, since the attempt counter was last dropped, a
      failure was counted but its quarantine marker was lost to a crash or an error. */
  datatype State = State(
    dir: Directory,
    lock: Option<Holder>,
    processes: map<Worker, Process>,
    reparses: map<nat, ReparsePoint>,
    issued: set<Token>,
    committed: set<Token>,
    gaps: nat,
    clock: int)

  /** The configuration accepts one second and more. */
  type Delay = n: nat | 1 <= n witness 1

  datatype Config = Config(staleAfter: Delay, retryCount: nat)

  const ReadyDirectory := Directory(None, None, None, false, None, map[], map[], [])

  predicate Init(s: State) {
    s == State(ReadyDirectory, None, map[], map[], {}, {}, 0, s.clock)
  }

  // ---------------------------------------------------------------- helpers

  predicate At(s: State, w: Worker, point: Point) {
    w in s.processes && s.processes[w].point == point
  }

  predicate Holding(point: Point) {
    || point.ClaimLocked? || point.ClaimSweep? || point.ClaimDecide? || point.ClearFailed?
    || point.ClearAttempts? || point.CreateMarker? || point.WriteMarker?
    || point.CommitLocked? || Fenced(point)
    || point.FailLocked? || point.ReleaseLocked?
  }

  /** Points reached only after the token was found in .processing under the lock still held. */
  predicate Fenced(point: Point) {
    || point.CommitSweep? || point.CommitValidate? || point.CommitMoveOld? || point.CommitMoveNew?
    || point.CommitRestore? || point.CommitRecheck? || point.CommitDropAttempts? || point.CommitDropFailed?
    || point.CommitMark? || point.CommitTidy?
    || point.FailCount? || point.FailQuarantine? || point.ReleaseUnlink?
  }

  predicate Claiming(point: Point) {
    || point.Idle? || point.ClaimLocked? || point.ClaimSweep? || point.ClaimDecide? || point.ClearFailed?
    || point.ClearAttempts? || point.CreateMarker? || point.WriteMarker?
  }

  /** Points inside the try block, from the claim to the writing of .parsed. */
  predicate Uncommitted(point: Point) {
    || point.WriteMarker? || point.Working? || point.Committing? || point.CommitLocked?
    || point.CommitSweep? || point.CommitValidate? || point.CommitMoveOld? || point.CommitMoveNew?
    || point.CommitRestore? || point.CommitRecheck? || point.CommitDropAttempts? || point.CommitDropFailed?
    || point.CommitMark?
  }

  /** Points where an exception leads to the failure handler. At CommitMoveNew that is the directory flush after
      the old outputs were moved away: it is not inside the try block, so nothing is restored. */
  predicate Fallible(point: Point) {
    (Uncommitted(point) && !point.WriteMarker?) || point.CommitTidy?
  }

  /** The token w holds is the one in .processing. */
  predicate Current(s: State, w: Worker) {
    && w in s.processes
    && s.processes[w].token.Some?
    && s.dir.processing.Some?
    && s.dir.processing.value.token == s.processes[w].token
  }

  function Age(s: State): int
    requires s.dir.processing.Some?
  {
    var age := s.clock - s.dir.processing.value.modified;
    if age < 0 then 0 else age
  }

  predicate Stale(cfg: Config, s: State)
    requires s.dir.processing.Some?
  {
    cfg.staleAfter <= Age(s)
  }

  function FailureCount(d: Directory): nat {
    if d.attempts.Some? then d.attempts.value else 0
  }

  /** w moves on; the lock is kept. */
  function Go(s: State, w: Worker, point: Point): State
    requires w in s.processes
  {
    s.(processes := s.processes[w := s.processes[w].(point := point)])
  }

  /** w moves on and takes the lock. */
  function Lock(s: State, w: Worker, point: Point): State
    requires w in s.processes
  {
    Go(s, w, point).(lock := Some(ByWorker(w)))
  }

  /** w moves on and gives up the lock if it has it. */
  function Unlock(s: State, w: Worker, point: Point): State
    requires w in s.processes
  {
    Go(s, w, point).(lock := if s.lock == Some(ByWorker(w)) then None else s.lock)
  }

  // ---------------------------------------------------------------- claiming

  datatype ClaimAction =
    | TakeClaimLock
    | SeeBusy
    | DisplaceStale
    | SeeFree
    | SweepOrphan(orphan: Token)
    | OrphansSwept
    | ForceClearParsed
    | ForceClearFailed
    | ForceClearAttempts
    | SeeParsed
    | SeeQuarantined
    | Proceed
    | CreateEmptyMarker(chosen: Token)
    | WriteToken
    | ClaimError

  predicate CanClaim(cfg: Config, s: State, w: Worker, a: ClaimAction) {
    && w in s.processes
    && var p := s.processes[w]; var d := s.dir;
    match a
    case TakeClaimLock => p.point.Idle? && s.lock.None?
    case SeeBusy => p.point.ClaimLocked? && d.processing.Some? && !Stale(cfg, s)
    case DisplaceStale => p.point.ClaimLocked? && d.processing.Some? && Stale(cfg, s)
    case SeeFree => p.point.ClaimLocked? && d.processing.None?
    case SweepOrphan(orphan) => p.point.ClaimSweep? && orphan in p.todo
    case OrphansSwept => p.point.ClaimSweep? && p.todo == {}
    case ForceClearParsed => p.point.ClaimDecide? && p.force
    case ForceClearFailed => p.point.ClearFailed?
    case ForceClearAttempts => p.point.ClearAttempts?
    case SeeParsed => p.point.ClaimDecide? && !p.force && d.parsed.Some?
    case SeeQuarantined => p.point.ClaimDecide? && !p.force && d.parsed.None? && d.failed
    case Proceed => p.point.ClaimDecide? && !p.force && d.parsed.None? && !d.failed
    case CreateEmptyMarker(chosen) => p.point.CreateMarker? && d.processing.None? && chosen !in s.issued
    case WriteToken => p.point.WriteMarker? && p.token.Some?
    case ClaimError => Claiming(p.point)
  }

  function Claim(cfg: Config, s: State, w: Worker, a: ClaimAction): State
    requires CanClaim(cfg, s, w, a)
  {
    var p := s.processes[w];
    var d := s.dir;
    match a
    case TakeClaimLock => Lock(s, w, ClaimLocked)
    case SeeBusy => Unlock(s, w, Done)
    case DisplaceStale => SweepFrom(s.(dir := d.(processing := None)), w, ClaimSweep, d.staging.Keys)
    case SeeFree => SweepFrom(s, w, ClaimSweep, d.staging.Keys)
    case SweepOrphan(orphan) => SweepOne(s, w, orphan)
    case OrphansSwept => Go(s, w, ClaimDecide)
    case ForceClearParsed => Go(s.(dir := d.(parsed := None)), w, ClearFailed)
    case ForceClearFailed => Go(s.(dir := d.(failed := false)), w, ClearAttempts)
    case ForceClearAttempts => Go(s.(dir := d.(attempts := None), gaps := 0), w, CreateMarker)
    case SeeParsed => Unlock(s, w, Done)
    case SeeQuarantined => Unlock(s, w, Done)
    case Proceed => Go(s, w, CreateMarker)
    case CreateEmptyMarker(chosen) =>
      s.(dir := d.(processing := Some(Marker(None, s.clock))),
         issued := s.issued + {chosen},
         processes := s.processes[w := p.(point := WriteMarker, token := Some(chosen))])
    case WriteToken =>
      Unlock(s.(dir := d.(processing := Some(Marker(p.token, s.clock)))), w, Working)
    case ClaimError => Unlock(s, w, Done)
  }

  function SweepFrom(s: State, w: Worker, point: Point, todo: set<Token>): State
    requires w in s.processes
  {
    s.(processes := s.processes[w := s.processes[w].(point := point, todo := todo)])
  }

  function SweepOne(s: State, w: Worker, orphan: Token): State
    requires w in s.processes
  {
    var p := s.processes[w];
    s.(dir := s.dir.(staging := s.dir.staging - {orphan}),
       processes := s.processes[w := p.(todo := p.todo - {orphan})])
  }

  // ---------------------------------------------------------------- parsing

  datatype WorkAction =
    | Heartbeat
    | MakeStaging
    | WriteStaging(content: Output)
    | FinishParse(result: Receipt)
    | RaiseError
    | TakeCommitLock

  predicate CanWork(s: State, w: Worker, a: WorkAction) {
    && w in s.processes
    && var p := s.processes[w];
    && p.token.Some?
    && match a
    case Heartbeat => !p.point.Crashed? && !Claiming(p.point) && s.lock.None? && Current(s, w)
    case MakeStaging => p.point.Working? && p.token.value !in s.dir.staging
    case WriteStaging(_) => p.point.Working?
    case FinishParse(_) => p.point.Working?
    case RaiseError => Fallible(p.point)
    case TakeCommitLock => p.point.Committing? && s.lock.None?
  }

  function Work(s: State, w: Worker, a: WorkAction): State
    requires CanWork(s, w, a)
  {
    var p := s.processes[w];
    var t := p.token.value;
    var d := s.dir;
    match a
    case Heartbeat => s.(dir := d.(processing := Some(Marker(p.token, s.clock))))
    case MakeStaging => s.(dir := d.(staging := d.staging[t := Output(0, 0, false)]))
    case WriteStaging(content) => s.(dir := d.(staging := d.staging[t := content]))
    case FinishParse(result) =>
      s.(processes := s.processes[w := p.(point := Committing, receipt := Some(result))])
    case RaiseError => Unlock(s, w, Failing)
    case TakeCommitLock => Lock(s, w, CommitLocked)
  }

  // ---------------------------------------------------------------- committing, under the lock

  datatype CommitAction =
    | PassFence
    | LoseLease
    | SweepOther(other: Token)
    | OthersSwept
    | StagingValid
    | MoveOldAway
    | MoveNewIn
    | MoveNewFails
    | RestoreOld
    | OutputsValid
    | DropAttempts
    | DropQuarantine
    | WriteParsed
    | DropSuperseded(removed: bool)

  predicate CanCommit(s: State, w: Worker, a: CommitAction) {
    && w in s.processes
    && var p := s.processes[w]; var d := s.dir;
    && p.token.Some?
    && match a
    case PassFence => p.point.CommitLocked? && Current(s, w)
    case LoseLease => p.point.CommitLocked? && !Current(s, w)
    case SweepOther(other) => p.point.CommitSweep? && other in p.todo
    case OthersSwept => p.point.CommitSweep? && p.todo == {}
    case StagingValid =>
      && p.point.CommitValidate? && p.receipt.Some?
      && p.token.value in d.staging && Validates(d.staging[p.token.value], p.receipt.value)
      && p.token.value !in d.superseded
    case MoveOldAway => p.point.CommitMoveOld?
    case MoveNewIn => p.point.CommitMoveNew? && p.token.value in d.staging
    case MoveNewFails => p.point.CommitMoveNew?
    case RestoreOld => p.point.CommitRestore?
    case OutputsValid =>
      && p.point.CommitRecheck? && p.receipt.Some?
      && d.pharsed.Some? && Validates(d.pharsed.value, p.receipt.value)
    case DropAttempts => p.point.CommitDropAttempts?
    case DropQuarantine => p.point.CommitDropFailed?
    case WriteParsed => p.point.CommitMark? && p.receipt.Some?
    case DropSuperseded(_) => p.point.CommitTidy?
  }

  function Commit(s: State, w: Worker, a: CommitAction): State
    requires CanCommit(s, w, a)
  {
    var p := s.processes[w];
    var t := p.token.value;
    var d := s.dir;
    match a
    case PassFence => SweepFrom(s, w, CommitSweep, d.staging.Keys - {t})
    case LoseLease => Unlock(s, w, Failing)
    case SweepOther(other) => SweepOne(s, w, other)
    case OthersSwept => Go(s, w, CommitValidate)
    case StagingValid => Go(s, w, CommitMoveOld)
    case MoveOldAway =>
      Go(if d.pharsed.None? then s
         else s.(dir := d.(pharsed := None, superseded := d.superseded[t := d.pharsed.value])), w, CommitMoveNew)
    case MoveNewIn =>
      Go(s.(dir := d.(pharsed := Some(d.staging[t]), staging := d.staging - {t})), w, CommitRecheck)
    case MoveNewFails => Go(s, w, CommitRestore)
    case RestoreOld =>
      Unlock(if t in d.superseded && d.pharsed.None?
             then s.(dir := d.(pharsed := Some(d.superseded[t]), superseded := d.superseded - {t}))
             else s, w, Failing)
    case OutputsValid => Go(s, w, CommitDropAttempts)
    case DropAttempts => Go(s.(dir := d.(attempts := None), gaps := 0), w, CommitDropFailed)
    case DropQuarantine => Go(s.(dir := d.(failed := false)), w, CommitMark)
    case WriteParsed =>
      Go(s.(dir := d.(parsed := p.receipt), committed := s.committed + {t}), w, CommitTidy)
    case DropSuperseded(removed) =>
      Unlock(if removed then s.(dir := d.(superseded := d.superseded - {t})) else s, w, Finishing)
  }

  // ---------------------------------------------------------------- failing

  datatype FailAction =
    | TakeFailLock
    | FailLockTimeout
    | PassFailFence
    | LoseFailFence
    | CountFailure
    | WriteQuarantine
    | FailureStateError

  predicate CanFail(s: State, w: Worker, a: FailAction) {
    && w in s.processes
    && var p := s.processes[w];
    && p.token.Some?
    && match a
    case TakeFailLock => p.point.Failing? && s.lock.None?
    case FailLockTimeout => p.point.Failing?
    case PassFailFence => p.point.FailLocked? && Current(s, w)
    case LoseFailFence => p.point.FailLocked? && !Current(s, w)
    case CountFailure => p.point.FailCount?
    case WriteQuarantine => p.point.FailQuarantine?
    case FailureStateError => p.point.FailLocked? || p.point.FailCount? || p.point.FailQuarantine?
  }

  /** One more lost quarantine marker when w stops between the two writes of a final failure. */
  function GapAfter(s: State, w: Worker): nat
    requires w in s.processes
  {
    s.gaps + if s.processes[w].point.FailQuarantine? then 1 else 0
  }

  function Fail(cfg: Config, s: State, w: Worker, a: FailAction): State
    requires CanFail(s, w, a)
  {
    var d := s.dir;
    match a
    case TakeFailLock => Lock(s, w, FailLocked)
    case FailLockTimeout => Go(s, w, Finishing)
    case PassFailFence => Go(s, w, FailCount)
    case LoseFailFence => Unlock(s, w, Finishing)
    case CountFailure =>
      var counted := s.(dir := d.(attempts := Some(FailureCount(d) + 1)));
      if FailureCount(d) + 1 > cfg.retryCount then Go(counted, w, FailQuarantine)
      else Unlock(counted, w, Finishing)
    case WriteQuarantine => Unlock(s.(dir := d.(failed := true)), w, Finishing)
    case FailureStateError => Unlock(s.(gaps := GapAfter(s, w)), w, Finishing)
  }

  // ---------------------------------------------------------------- cleaning up

  datatype EndAction =
    | RemoveOwnStaging(removed: bool)
    | TakeReleaseLock
    | ReleaseLockTimeout
    | CheckRelease
    | UnlinkMarker
    | UnlinkFails

  predicate CanEnd(s: State, w: Worker, a: EndAction) {
    && w in s.processes
    && var p := s.processes[w];
    && p.token.Some?
    && match a
    case RemoveOwnStaging(_) => p.point.Finishing?
    case TakeReleaseLock => p.point.Releasing? && s.lock.None?
    case ReleaseLockTimeout => p.point.Releasing?
    case CheckRelease => p.point.ReleaseLocked?
    case UnlinkMarker => p.point.ReleaseUnlink?
    case UnlinkFails => p.point.ReleaseUnlink?
  }

  function End(s: State, w: Worker, a: EndAction): State
    requires CanEnd(s, w, a)
  {
    var t := s.processes[w].token.value;
    var d := s.dir;
    match a
    case RemoveOwnStaging(removed) =>
      Go(if removed then s.(dir := d.(staging := d.staging - {t})) else s, w, Releasing)
    case TakeReleaseLock => Lock(s, w, ReleaseLocked)
    case ReleaseLockTimeout => Go(s, w, Done)
    case CheckRelease => if Current(s, w) then Go(s, w, ReleaseUnlink) else Unlock(s, w, Done)
    case UnlinkMarker => Unlock(s.(dir := d.(processing := None)), w, Done)
    case UnlinkFails => Unlock(s, w, Done)
  }

  // ---------------------------------------------------------------- the reparse tool

  datatype ReparseAction = TakeReparseLock | Invalidate | MoveToBackup | StopReparse

  predicate CanReparse(cfg: Config, s: State, r: nat, a: ReparseAction) {
    && r in s.reparses
    && match a
    case TakeReparseLock =>
      s.reparses[r].ReparseIdle? && s.lock.None? && (s.dir.processing.None? || Stale(cfg, s))
    case Invalidate => s.reparses[r].ReparseInvalidate?
    case MoveToBackup => s.reparses[r].ReparseMove? && s.dir.pharsed.Some?
    case StopReparse => !s.reparses[r].ReparseDone?
  }

  function Reparse(cfg: Config, s: State, r: nat, a: ReparseAction): State
    requires CanReparse(cfg, s, r, a)
  {
    var d := s.dir;
    var free := if s.lock == Some(ByReparse(r)) then None else s.lock;
    match a
    case TakeReparseLock => s.(reparses := s.reparses[r := ReparseInvalidate], lock := Some(ByReparse(r)))
    case Invalidate => s.(dir := d.(parsed := None), reparses := s.reparses[r := ReparseMove])
    case MoveToBackup =>
      s.(dir := d.(pharsed := None, backups := d.backups + [d.pharsed.value]),
         reparses := s.reparses[r := ReparseDone], lock := free)
    case StopReparse => s.(reparses := s.reparses[r := ReparseDone], lock := free)
  }

  // ---------------------------------------------------------------- all steps

  datatype Step =
    | SpawnStep(worker: Worker, force: bool)
    | ClaimStep(worker: Worker, claim: ClaimAction)
    | WorkStep(worker: Worker, work: WorkAction)
    | CommitStep(worker: Worker, commit: CommitAction)
    | FailStep(worker: Worker, failing: FailAction)
    | EndStep(worker: Worker, end: EndAction)
    | CrashStep(worker: Worker)
    | SpawnReparseStep(reparse: nat)
    | ReparseStep(reparse: nat, action: ReparseAction)
    | TickStep(now: int)

  predicate Enabled(cfg: Config, s: State, step: Step) {
    match step
    case SpawnStep(w, _) => w !in s.processes
    case ClaimStep(w, a) => CanClaim(cfg, s, w, a)
    case WorkStep(w, a) => CanWork(s, w, a)
    case CommitStep(w, a) => CanCommit(s, w, a)
    case FailStep(w, a) => CanFail(s, w, a)
    case EndStep(w, a) => CanEnd(s, w, a)
    case CrashStep(w) => w in s.processes && !s.processes[w].point.Done? && !s.processes[w].point.Crashed?
    case SpawnReparseStep(r) => r !in s.reparses
    case ReparseStep(r, a) => CanReparse(cfg, s, r, a)
    case TickStep(_) => true
  }

  function Apply(cfg: Config, s: State, step: Step): State
    requires Enabled(cfg, s, step)
  {
    match step
    case SpawnStep(w, force) => s.(processes := s.processes[w := Process(force, Idle, None, None, {})])
    case ClaimStep(w, a) => Claim(cfg, s, w, a)
    case WorkStep(w, a) => Work(s, w, a)
    case CommitStep(w, a) => Commit(s, w, a)
    case FailStep(w, a) => Fail(cfg, s, w, a)
    case EndStep(w, a) => End(s, w, a)
    case CrashStep(w) => Unlock(s.(gaps := GapAfter(s, w)), w, Crashed)
    case SpawnReparseStep(r) => s.(reparses := s.reparses[r := ReparseIdle])
    case ReparseStep(r, a) => Reparse(cfg, s, r, a)
    case TickStep(now) => s.(clock := now)
  }

  /** states[i + 1] follows states[i] by steps[i]. */
  ghost predicate Run(cfg: Config, states: seq<State>, steps: seq<Step>) {
    && |states| == |steps| + 1
    && Init(states[0])
    && forall i | 0 <= i < |steps| :: Enabled(cfg, states[i], steps[i]) && Apply(cfg, states[i], steps[i]) == states[i + 1]
  }
}
