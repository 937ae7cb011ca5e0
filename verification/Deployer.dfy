/** The deploy protocol of one model (app/deployer/service.py) as a state machine. Every database session
    that commits is one step, and so is every backend call; between two steps anything else may happen.
    Requests act on copies of the row that may be arbitrarily stale. */
module Deployer {
  import opened Options
  import opened Resources
  import opened States

  type Digest = string

  datatype Row = Row(
    state: State,
    mode: Mode,
    current: Option<Digest>,
    previous: Option<Digest>,
    pending: Option<Digest>,
    failed: Option<Digest>,
    approved: Option<Resources>)

  /** What runs in the cluster: one version with its resources, or the mixture a half-done apply leaves. */
  datatype Workload = Workload(digest: Digest, resources: Resources) | Mixed

  /** What a failed or interrupted backend call leaves behind. */
  datatype Left = Untouched | Gone | New | Torn

  /** What its own history tells a task about the workload. */
  datatype Footing =
    | Sound          // the recorded version, if anything, runs
    | AfterFailure   // claimed from a model that was neither ready nor sleeping
    | AfterGrant     // claimed by an approval that replaced the grant
    | AfterRestart   // claimed by the recovery
    | AfterApply     // another version has been applied
    | AfterFault     // an apply call raised
    | AfterRollback  // the apply call of the rollback raised

  /** Where a background task is. The comments name the code that runs next. */
  datatype Phase =
    | Queued(digest: Digest, footing: Footing)                 // `run` waits for the lock
    | Applying(digest: Digest, prior: Option<Digest>, footing: Footing)  // `_deploy_version` reads the spec
    | Calling(digest: Digest, prior: Option<Digest>, spec: Workload)  // `apply_model(spec)`
    | Applied(digest: Digest, prior: Option<Digest>)           // `_wait_ready`, identity check, route, final record
    | Failing(digest: Digest, prior: Option<Digest>, footing: Footing)  // `_handle_failure`
    | RollingBack(digest: Digest, back: Digest, spec: Workload)  // its `apply_model` of the old version
    | RolledBack(digest: Digest, back: Digest)                 // its wait, then the record "ready"
    | Doomed(digest: Digest, footing: Footing)                 // no rollback: the record "failed"
    | CleaningUp                                             // "failed" is recorded: the workload is deleted
    | Tail                                                   // "ready" is recorded: the route is written
    | WakeQueued                                             // `run_wake` waits for the lock
    | Waking                                                 // its scale call and wait
    | Crashed(footing: Footing)                              // died before its final record: `_guarded` repairs
    | CrashedLate                                            // died after its final record: `_guarded` repairs

  /** The task has been given the model and has not made its final record yet. */
  predicate IsOwner(p: Phase) { !p.CleaningUp? && !p.Tail? && !p.CrashedLate? }

  /** The task is inside `async with self._lock(model_id)`. */
  predicate HoldsLock(p: Phase) { !p.Queued? && !p.WakeQueued? && !p.Crashed? && !p.CrashedLate? }

  datatype Status =
    | Running
    | Down                               // the process is not running
    | Marked(redeploy: Option<Digest>)   // between the two commits of `recover_interrupted`

  datatype Grant = Grant(requested: Resources, granted: Resources)

  datatype Sys = Sys(
    row: Row,
    workload: Option<Workload>,
    tasks: map<nat, Phase>,
    next: nat,                 // ids below are used
    lock: Option<nat>,
    sleeper: bool,             // a `sleep` request holds the row between its UPDATE and its commit
    status: Status,
    grants: seq<Grant>,        // every approval so far
    applied: seq<Workload>)    // every workload handed to the backend so far

  /** Requests of other actors; what they hold as a `copy` is what their in-memory row shows, however stale. */
  datatype Request =
    | Begin(copy: State, copyApproved: bool, digest: Digest, clearFailed: bool)
    | Rollback(copy: State, copyApproved: bool, copyPrevious: Option<Digest>)
    | Approve(copy: State, copyGrant: Option<Resources>, requested: Resources, granted: Resources, digest: Digest)
    | SetPending(pending: Option<Digest>)
    | Reregister(removed: Row, mode: Mode)
    | Reject(copy: State, copyRan: bool)
    | BeginWake(copy: State)
    | SleepClaim(copy: State)
    | SleepCommit
    | SleepAbort
    | Remove
    | RemoveFails(left: Left)

  /** What a deploy task does next. */
  datatype DeployStep =
    | Start
    | ReadSpec
    | ApplyOk
    | ApplyFails(left: Left)
    | GpuWait(waiting: bool)
    | Fail
    | Record(workerRunning: bool)

  /** What its failure handling does next. */
  datatype FailureStep =
    | Abandon
    | ReadRollback
    | RollbackOk
    | RollbackFails(left: Left)
    | RecordRolledBack
    | RecordFailed
    | CleanUp(left: Left)
    | TailDone

  datatype WakeStep = WakeStart | WakeDone | WakeFails

  /** A task dies with an exception, and what `_guarded` makes of it. */
  datatype GuardStep = EarlyCrash | HandlerCrash | TailCrash | Repair | RepairFails

  datatype SystemStep =
    | Crash(left: Left)        // process crash or shutdown: every task is gone
    | RecoverMark | RecoverBegin
    | Lose                     // the workload disappears by itself

  datatype Event =
    | Ask(r: Request)
    | Deploy(id: nat, d: DeployStep)
    | Handle(id: nat, h: FailureStep)
    | Wake(id: nat, w: WakeStep)
    | Guard(id: nat, g: GuardStep)
    | System(y: SystemStep)

  function Initial(mode: Mode): Sys {
    Sys(Row(PendingApproval, mode, None, None, None, None, None), None, map[], 0, None, false, Running, [], [])
  }

  // ----- which steps are possible -----

  predicate Live(s: Sys, id: nat) { s.status.Running? && id in s.tasks }

  /** No other transaction holds the row. */
  predicate CanWrite(s: Sys) { s.status.Running? && !s.sleeper }

  /** A failed call on existing containers deletes some or none; only an apply brings new ones. */
  predicate Deleting(left: Left) { left.Untouched? || left.Gone? }

  predicate MayBeginCopy(copy: State, copyApproved: bool) { Startable(copy) && copyApproved }

  predicate MayAsk(s: Sys, r: Request) {
    match r
    case Approve(_, _, requested, granted, _) => CanWrite(s) && !Exceeds(granted, Some(requested))
    case Reregister(copy, _) => CanWrite(s) && copy.state.Removed? && copy.current.None? && copy.previous.None?
    case SleepCommit => s.status.Running? && s.sleeper
    case SleepAbort => s.status.Running? && s.sleeper
    case Remove => CanWrite(s) && !Busy(s.row.state)
    case RemoveFails(left) => CanWrite(s) && !Busy(s.row.state) && Deleting(left)
    case _ => CanWrite(s)
  }

  predicate MayDeploy(s: Sys, p: Phase, d: DeployStep) {
    match d
    case Start => p.Queued? && CanWrite(s) && s.lock.None?
    case ReadSpec => p.Applying?
    case ApplyOk => p.Calling?
    case ApplyFails(_) => p.Calling?
    case GpuWait(_) => (p.Applied? || p.RolledBack? || p.Waking?) && CanWrite(s)
    case Fail => p.Applying? || p.Applied?
    case Record(_) => p.Applied? && CanWrite(s)
  }

  predicate MayHandle(s: Sys, p: Phase, h: FailureStep) {
    match h
    case Abandon => p.Failing? && s.row.state.Removed?
    case ReadRollback => p.Failing? && !s.row.state.Removed?
    case RollbackOk => p.RollingBack?
    case RollbackFails(_) => p.RollingBack? || p.RolledBack?
    case RecordRolledBack => p.RolledBack? && CanWrite(s)
    case RecordFailed => p.Doomed? && CanWrite(s)
    case CleanUp(left) => p.CleaningUp? && Deleting(left)
    case TailDone => p.Tail?
  }

  predicate MayWake(s: Sys, p: Phase, w: WakeStep) {
    match w
    case WakeStart => p.WakeQueued? && s.lock.None?
    case WakeDone => p.Waking? && CanWrite(s)
    case WakeFails => p.Waking? && CanWrite(s)
  }

  predicate MayGuard(s: Sys, p: Phase, g: GuardStep) {
    match g
    case EarlyCrash => (p.Queued? || p.WakeQueued?) && s.lock.None?
    case HandlerCrash => p.Failing? || p.RolledBack? || p.Doomed? || p.Waking?
    case TailCrash => p.CleaningUp? || p.Tail?
    case Repair => (p.Crashed? || p.CrashedLate?) && CanWrite(s)
    case RepairFails => p.Crashed? || p.CrashedLate?
  }

  predicate MayHappen(s: Sys, y: SystemStep) {
    match y
    case Crash(left) => Deleting(left) || CallInFlight(s).Some?
    case RecoverMark => s.status.Down?
    case RecoverBegin => s.status.Marked?
    case Lose => true
  }

  predicate Enabled(s: Sys, e: Event) {
    match e
    case Ask(r) => MayAsk(s, r)
    case Deploy(id, d) => Live(s, id) && MayDeploy(s, s.tasks[id], d)
    case Handle(id, h) => Live(s, id) && MayHandle(s, s.tasks[id], h)
    case Wake(id, w) => Live(s, id) && MayWake(s, s.tasks[id], w)
    case Guard(id, g) => Live(s, id) && MayGuard(s, s.tasks[id], g)
    case System(y) => MayHappen(s, y)
  }

  /** The spec of the apply call that is running, if one is. */
  function CallInFlight(s: Sys): Option<Workload> {
    if s.lock.Some? && s.lock.value in s.tasks then
      match s.tasks[s.lock.value]
      case Calling(_, _, spec) => Some(spec)
      case RollingBack(_, _, spec) => Some(spec)
      case _ => None
    else None
  }

  // ----- what each step does -----

  function Leave(workload: Option<Workload>, spec: Workload, left: Left): Option<Workload> {
    match left
    case Untouched => workload
    case Gone => None
    case New => Some(spec)
    case Torn => Some(Mixed)
  }

  function To(s: Sys, id: nat, p: Phase): Sys { s.(tasks := s.tasks[id := p]) }

  /** The task is over; if it held the lock, the lock is free again. */
  function Finish(s: Sys, id: nat): Sys {
    s.(tasks := s.tasks - {id}, lock := if s.lock == Some(id) then None else s.lock)
  }

  function Unlock(s: Sys, id: nat, p: Phase): Sys {
    To(s, id, p).(lock := if s.lock == Some(id) then None else s.lock)
  }

  function Spawn(s: Sys, p: Phase): Sys { s.(tasks := s.tasks[s.next := p], next := s.next + 1) }

  function SetState(s: Sys, st: State): Sys { s.(row := s.row.(state := st)) }

  /** What the claim itself says about the workload. */
  function Claimed(row: Row, approved: Option<Resources>): Footing {
    if approved != row.approved then AfterGrant else if Settled(row.state) then Sound else AfterFailure
  }

  /** `begin` in the transaction of its caller: the checks on the copy, then the conditional UPDATE. */
  function Claim(s: Sys, copy: State, copyApproved: bool, digest: Digest, approved: Option<Resources>): Option<Sys> {
    if MayBeginCopy(copy, copyApproved) && Startable(s.row.state) then
      Some(Spawn(s.(row := s.row.(state := Deploying, approved := approved)),
                 Queued(digest, Claimed(s.row, approved))))
    else None
  }

  function Forget(pending: Option<Digest>, digest: Digest): Option<Digest> {
    if pending == Some(digest) then None else pending
  }

  /** Only an attribute that differs from the copy is written. */
  function GrantWritten(row: Row, copyGrant: Option<Resources>, granted: Resources): Option<Resources> {
    if copyGrant == Some(granted) then row.approved else Some(granted)
  }

  /** A removed model is registered again: an UPDATE by id of what differs from the copy. A removed row holds no
      versions, so those are not written. */
  function Reregistered(row: Row, copy: Row, mode: Mode): Row {
    row.(state := PendingApproval,
         mode := if copy.mode != mode then mode else row.mode,
         failed := if copy.failed.Some? then None else row.failed,
         approved := if copy.approved.Some? then None else row.approved)
  }

  /** Rejecting the first request of a model marks the model failed: an UPDATE by id, decided on the copy alone. */
  predicate RejectWrites(r: Request)
    requires r.Reject?
  {
    r.copy.PendingApproval? && !r.copyRan
  }

  /** The state `_guarded` writes into a busy row. */
  function RepairedState(row: Row): State {
    if row.current.None? then Failed else if row.mode.Sync? then Ready else Sleeping
  }

  function DoAsk(s: Sys, r: Request): Sys
    requires MayAsk(s, r)
  {
    match r
    case Begin(copy, copyApproved, digest, clearFailed) =>
      var c := Claim(s, copy, copyApproved, digest, s.row.approved);
      if c.None? then s
      else if clearFailed then c.value.(row := c.value.row.(failed := None))
      else c.value
    case Rollback(copy, copyApproved, copyPrevious) =>
      if copyPrevious.None? then s
      else
        var c := Claim(s, copy, copyApproved, copyPrevious.value, s.row.approved);
        if c.None? then s else c.value
    case Approve(copy, copyGrant, requested, granted, digest) =>
      var c := Claim(s, copy, true, digest, GrantWritten(s.row, copyGrant, granted));
      if c.None? then s else c.value.(grants := s.grants + [Grant(requested, granted)])
    case SetPending(p) => s.(row := s.row.(pending := p))
    case Reregister(copy, mode) => s.(row := Reregistered(s.row, copy, mode))
    case Reject(copy, copyRan) => if RejectWrites(r) then SetState(s, Failed) else s
    case BeginWake(copy) =>
      if copy.Sleeping? && s.row.state.Sleeping? then Spawn(SetState(s, Starting), WakeQueued) else s
    case SleepClaim(copy) => if copy.Ready? && s.row.state.Ready? then s.(sleeper := true) else s
    case SleepCommit => SetState(s, Sleeping).(sleeper := false)
    case SleepAbort => s.(sleeper := false)
    case Remove =>
      s.(row := s.row.(state := Removed, current := None, previous := None, pending := None), workload := None)
    case RemoveFails(left) => s.(workload := Leave(s.workload, Mixed, left))
  }

  function DoDeploy(s: Sys, id: nat, d: DeployStep): Sys
    requires Live(s, id) && MayDeploy(s, s.tasks[id], d)
  {
    var p := s.tasks[id];
    match d
    case Start =>
      if s.row.state.Removed? then Finish(s, id)
      else To(SetState(s, Deploying), id, Applying(p.digest, s.row.current, p.footing)).(lock := Some(id))
    case ReadSpec =>
      if s.row.approved.None? then To(s, id, Failing(p.digest, p.prior, p.footing))
      else To(s, id, Calling(p.digest, p.prior, Workload(p.digest, s.row.approved.value)))
    case ApplyOk =>
      To(s, id, Applied(p.digest, p.prior)).(workload := Some(p.spec), applied := s.applied + [p.spec])
    case ApplyFails(left) =>
      To(s, id, Failing(p.digest, p.prior, AfterFault))
        .(workload := Leave(s.workload, p.spec, left), applied := s.applied + [p.spec])
    case GpuWait(waiting) => SetState(s, if waiting then WaitingForGpu else Deploying)
    case Fail => To(s, id, Failing(p.digest, p.prior,
      if p.Applying? then p.footing
      else if p.prior == Some(p.digest) then Sound else AfterApply))
    case Record(workerRunning) =>
      if s.row.state.Removed? then Finish(s, id)
      else
        Finish(s, id).(row := s.row.(
          state := if s.row.mode.Queue? && !workerRunning then Sleeping else Ready,
          previous := if p.prior.Some? && p.prior.value != p.digest then p.prior else s.row.previous,
          current := Some(p.digest),
          pending := Forget(s.row.pending, p.digest)))
  }

  function DoHandle(s: Sys, id: nat, h: FailureStep): Sys
    requires Live(s, id) && MayHandle(s, s.tasks[id], h)
  {
    var p := s.tasks[id];
    match h
    case Abandon => Finish(s, id).(workload := None)
    case ReadRollback =>
      if p.prior.None? || s.row.approved.None? then To(s, id, Doomed(p.digest, p.footing))
      else To(s, id, RollingBack(p.digest, p.prior.value, Workload(p.prior.value, s.row.approved.value)))
    case RollbackOk =>
      To(s, id, RolledBack(p.digest, p.back)).(workload := Some(p.spec), applied := s.applied + [p.spec])
    case RollbackFails(left) =>
      if p.RollingBack? then
        To(s, id, Doomed(p.digest, AfterRollback))
          .(workload := Leave(s.workload, p.spec, left), applied := s.applied + [p.spec])
      else To(s, id, Doomed(p.digest, Sound))
    case RecordRolledBack =>
      To(s, id, Tail)
        .(row := s.row.(state := Ready, failed := Some(p.digest), pending := Forget(s.row.pending, p.digest)))
    case RecordFailed =>
      To(s, id, CleaningUp)
        .(row := s.row.(state := Failed, failed := Some(p.digest), pending := Forget(s.row.pending, p.digest)))
    case CleanUp(left) => Finish(s, id).(workload := Leave(s.workload, Mixed, left))
    case TailDone => Finish(s, id)
  }

  function DoWake(s: Sys, id: nat, w: WakeStep): Sys
    requires Live(s, id) && MayWake(s, s.tasks[id], w)
  {
    match w
    case WakeStart => if s.row.state.Starting? then To(s, id, Waking).(lock := Some(id)) else Finish(s, id)
    case WakeDone => SetState(Finish(s, id), Ready)
    case WakeFails => SetState(Finish(s, id), if s.row.mode.Queue? then Sleeping else Failed)
  }

  function DoGuard(s: Sys, id: nat, g: GuardStep): Sys
    requires Live(s, id) && MayGuard(s, s.tasks[id], g)
  {
    var p := s.tasks[id];
    match g
    case EarlyCrash => To(s, id, Crashed(if p.WakeQueued? then Sound else p.footing))
    case HandlerCrash => Unlock(s, id, Crashed(if p.Failing? || p.Doomed? then p.footing else Sound))
    case TailCrash => Unlock(s, id, CrashedLate)
    case Repair => if Busy(s.row.state) then SetState(Finish(s, id), RepairedState(s.row)) else Finish(s, id)
    case RepairFails => Finish(s, id)
  }

  function DoSystem(s: Sys, y: SystemStep): Sys
    requires MayHappen(s, y)
  {
    match y
    case Crash(left) =>
      s.(tasks := map[], lock := None, sleeper := false, status := Down,
         workload := Leave(s.workload, if CallInFlight(s).Some? then CallInFlight(s).value else Mixed, left))
    case RecoverMark =>
      if !Busy(s.row.state) then s.(status := Marked(None))
      else if s.row.current.Some? then SetState(s, Ready).(status := Marked(s.row.current))
      else SetState(s, Failed).(status := Marked(None))
    case RecoverBegin =>
      var up := s.(status := Running);
      if s.status.redeploy.None? || s.row.approved.None? || !Startable(s.row.state) then up
      else Spawn(SetState(up, Deploying), Queued(s.status.redeploy.value, AfterRestart))
    case Lose => s.(workload := None)
  }

  function Do(s: Sys, e: Event): Sys
    requires Enabled(s, e)
  {
    match e
    case Ask(r) => DoAsk(s, r)
    case Deploy(id, d) => DoDeploy(s, id, d)
    case Handle(id, h) => DoHandle(s, id, h)
    case Wake(id, w) => DoWake(s, id, w)
    case Guard(id, g) => DoGuard(s, id, g)
    case System(y) => DoSystem(s, y)
  }

  // ----- steps that break what the others rely on -----

  /** The steps after which a model is busy without an owner, or not busy in spite of one: the repair of a task that
      died after its final record meets a busy row; the repair of one that died before it fails; the rejection of a
      first request is written over a claim made since it was read; a re-registration is written over a claim, or over
      a version recorded, since it read the model as removed. */
  predicate Splits(s: Sys, e: Event)
    requires Enabled(s, e)
  {
    match e
    case Guard(id, g) =>
      (g.Repair? && s.tasks[id].CrashedLate? && Busy(s.row.state)) || (g.RepairFails? && s.tasks[id].Crashed?)
    case Ask(r) =>
      || (r.Reject? && RejectWrites(r) && Busy(s.row.state))
      || (r.Reregister? && (Busy(s.row.state) || s.row.current.Some?))
    case _ => false
  }

  /** The steps that declare a model settled although the history of the task, or of the process, does not vouch
      for the workload: `_guarded` repairs a task on no sound footing, or the process dies between the two commits of
      `recover_interrupted`. */
  datatype Lapse = Repaired(footing: Footing) | RecoveryCut

  function LapseOf(s: Sys, e: Event): Option<Lapse>
    requires Enabled(s, e)
  {
    match e
    case Guard(id, g) =>
      if g.Repair? && s.tasks[id].Crashed? && !s.tasks[id].footing.Sound? && s.row.current.Some? then
        Some(Repaired(s.tasks[id].footing))
      else None
    case System(y) => if y.Crash? && s.status.Marked? && s.status.redeploy.Some? then Some(RecoveryCut) else None
    case _ => None
  }

  // ----- runs -----

  ghost predicate IsRun(s: Sys, es: seq<Event>)
    decreases es
  {
    es == [] || (Enabled(s, es[0]) && IsRun(Do(s, es[0]), es[1..]))
  }

  ghost function After(s: Sys, es: seq<Event>): Sys
    requires IsRun(s, es)
    decreases es
  {
    if es == [] then s else After(Do(s, es[0]), es[1..])
  }

  ghost predicate Unsplit(s: Sys, es: seq<Event>)
    requires IsRun(s, es)
    decreases es
  {
    es == [] || (!Splits(s, es[0]) && Unsplit(Do(s, es[0]), es[1..]))
  }

  ghost predicate Careful(s: Sys, es: seq<Event>)
    requires IsRun(s, es)
    decreases es
  {
    es == [] || (LapseOf(s, es[0]).None? && Careful(Do(s, es[0]), es[1..]))
  }
}
