/** Why the row of a model says what it says: which step of a run made its state, its failed version, its waiting
    version, its grant, and where the tasks of a busy model end. */
module DeployerHistory {
  import opened Options
  import opened Resources
  import opened States
  import opened Deployer
  import opened DeployerInvariants
  import opened DeployerTheorems

  // ----- the state -----

  /** The task of the step, where there is one. */
  function PhaseAt(s: Sys, e: Event): Phase
    requires Enabled(s, e) && (e.Deploy? || e.Handle? || e.Wake? || e.Guard?)
  {
    s.tasks[e.id]
  }

  predicate WinsClaim(s: Sys, e: Event) { e.Ask? && IsClaim(e.r) && CopyAllows(e.r) && RowAllows(s.row, e.r) }

  /** A deploy makes its final record, and the row is still there. */
  predicate Recorded(s: Sys, e: Event) { e.Deploy? && e.d.Record? && !s.row.state.Removed? }

  /** The guard finds the model of a dead task busy. */
  predicate Repairs(s: Sys, e: Event) { e.Guard? && e.g.Repair? && Busy(s.row.state) }

  /** The recovery finds the model busy. */
  predicate Recovers(s: Sys, e: Event) { e.System? && e.y.RecoverMark? && Busy(s.row.state) }

  /** A `sleep` is committed; a queue model without a running worker is deployed; the wake of a queue model fails; a
      dead task of a queue model that has a version is repaired. */
  predicate MakesSleeping(s: Sys, e: Event)
    requires Enabled(s, e)
  {
    || (e.Ask? && e.r.SleepCommit?)
    || (Recorded(s, e) && s.row.mode.Queue? && !e.d.workerRunning)
    || (e.Wake? && e.w.WakeFails? && s.row.mode.Queue?)
    || (Repairs(s, e) && s.row.mode.Queue? && s.row.current.Some?)
  }

  /** A deploy succeeds and what it serves with runs; a failed one is rolled back; a wake succeeds; a dead task of a
      sync model that has a version is repaired; the recovery finds a busy model that has a version. */
  predicate MakesReady(s: Sys, e: Event)
    requires Enabled(s, e)
  {
    || (Recorded(s, e) && (s.row.mode.Sync? || e.d.workerRunning))
    || (e.Handle? && e.h.RecordRolledBack?)
    || (e.Wake? && e.w.WakeDone?)
    || (Repairs(s, e) && s.row.mode.Sync? && s.row.current.Some?)
    || (Recovers(s, e) && s.row.current.Some?)
  }

  /** A deploy and its rollback fail, or there is nothing to roll back to; the wake of a sync model fails; a dead
      task, or a busy model found by the recovery, has no version; the first request of a model is rejected. */
  predicate MakesFailed(s: Sys, e: Event)
    requires Enabled(s, e)
  {
    || (e.Handle? && e.h.RecordFailed?)
    || (e.Wake? && e.w.WakeFails? && s.row.mode.Sync?)
    || (Repairs(s, e) && s.row.current.None?)
    || (Recovers(s, e) && s.row.current.None?)
    || (e.Ask? && e.r.Reject? && e.r.copy.PendingApproval? && !e.r.copyRan)
  }

  predicate MakesDeploying(s: Sys, e: Event)
    requires Enabled(s, e)
  {
    || (WinsClaim(s, e) && !e.r.BeginWake?)
    || (e.Deploy? && e.d.Start? && !s.row.state.Removed?)
    || (e.Deploy? && e.d.GpuWait? && !e.d.waiting)
    || (e.System? && e.y.RecoverBegin? && s.status.redeploy.Some? && s.row.approved.Some? && Startable(s.row.state))
  }

  predicate Makes(s: Sys, e: Event, st: State)
    requires Enabled(s, e)
  {
    match st
    case PendingApproval => e.Ask? && e.r.Reregister?
    case Deploying => MakesDeploying(s, e)
    case Starting => WinsClaim(s, e) && e.r.BeginWake?
    case Ready => MakesReady(s, e)
    case Sleeping => MakesSleeping(s, e)
    case WaitingForGpu => e.Deploy? && e.d.GpuWait? && e.d.waiting
    case Failed => MakesFailed(s, e)
    case Removed => e.Ask? && e.r.Remove?
  }


  /** The step makes this state, or makes none and leaves it. */
  ghost predicate MadeOrLeft(s: Sys, e: Event, st: State)
    requires Enabled(s, e)
  {
    if exists x :: Makes(s, e, x) then Makes(s, e, st) else s.row.state == st
  }

  lemma MadeByTask(s: Sys, e: Event)
    requires Enabled(s, e) && (e.Deploy? || e.Handle? || e.Wake? || e.Guard?)
    ensures MadeOrLeft(s, e, Do(s, e).row.state)
    ensures forall x :: Makes(s, e, x) ==> x == Do(s, e).row.state
  {
    if Makes(s, e, Do(s, e).row.state) {
    } else {
      assert Do(s, e).row.state == s.row.state;
    }
  }

  lemma MadeByRequest(s: Sys, e: Event)
    requires Enabled(s, e) && e.Ask?
    ensures MadeOrLeft(s, e, Do(s, e).row.state)
    ensures forall x :: Makes(s, e, x) ==> x == Do(s, e).row.state
  {
    if Makes(s, e, Do(s, e).row.state) {
    } else {
      assert Do(s, e).row.state == s.row.state;
    }
  }

  lemma MadeBySystem(s: Sys, e: Event)
    requires Enabled(s, e) && e.System?
    ensures MadeOrLeft(s, e, Do(s, e).row.state)
    ensures forall x :: Makes(s, e, x) ==> x == Do(s, e).row.state
  {
    if Makes(s, e, Do(s, e).row.state) {
    } else {
      assert Do(s, e).row.state == s.row.state;
    }
  }

  lemma StepMakes(s: Sys, e: Event)
    requires Enabled(s, e)
    ensures MadeOrLeft(s, e, Do(s, e).row.state)
    ensures forall x :: Makes(s, e, x) ==> x == Do(s, e).row.state
  {
    if e.Ask? {
      MadeByRequest(s, e);
    } else if e.System? {
      MadeBySystem(s, e);
    } else {
      MadeByTask(s, e);
    }
  }

  ghost predicate NoneMade(s: Sys, es: seq<Event>)
    requires IsRun(s, es)
    decreases es
  {
    es == [] || ((forall x :: !Makes(s, es[0], x)) && NoneMade(Do(s, es[0]), es[1..]))
  }

  /** The last step of the run that made a state made this one. */
  ghost predicate LastMakes(s: Sys, es: seq<Event>, st: State)
    requires IsRun(s, es)
    decreases es
  {
    es != [] &&
    ((Makes(s, es[0], st) && NoneMade(Do(s, es[0]), es[1..])) || LastMakes(Do(s, es[0]), es[1..], st))
  }

  /** After every run a model is in the state that the last step to make one has made, or, if none has, in its first. */
  lemma {:induction false} StateIsLastMade(s: Sys, es: seq<Event>, st: State)
    requires IsRun(s, es)
    ensures After(s, es).row.state == st <==> LastMakes(s, es, st) || (NoneMade(s, es) && s.row.state == st)
    decreases es
  {
    if es != [] {
      var s' := Do(s, es[0]);
      StepMakes(s, es[0]);
      StateIsLastMade(s', es[1..], st);
    }
  }

  /** A model begins by waiting for its first approval. */
  lemma WhyInState(mode: Mode, es: seq<Event>, st: State)
    requires IsRun(Initial(mode), es)
    ensures After(Initial(mode), es).row.state == st <==>
      LastMakes(Initial(mode), es, st) || (NoneMade(Initial(mode), es) && st == PendingApproval)
  {
    StateIsLastMade(Initial(mode), es, st);
  }

  // ----- the workload -----

  /** What the step hands to the backend. */
  predicate Hands(s: Sys, e: Event, spec: Workload)
    requires Enabled(s, e)
  {
    || (e.Deploy? && (e.d.ApplyOk? || e.d.ApplyFails?) && PhaseAt(s, e).Calling? && PhaseAt(s, e).spec == spec)
    || (e.Handle? && (e.h.RollbackOk? || e.h.RollbackFails?) && PhaseAt(s, e).RollingBack?
        && PhaseAt(s, e).spec == spec)
  }

  /** What the failed call leaves, of what it was given. */
  predicate Leaves(before: Option<Workload>, after: Option<Workload>, spec: Workload, left: Left) {
    && (left.Untouched? ==> after == before)
    && (left.Gone? ==> after.None?)
    && (left.New? ==> after == Some(spec))
    && (left.Torn? ==> after == Some(Mixed))
  }

  /** The step deletes the workload, or the cluster loses it. */
  predicate Deletes(e: Event) {
    || (e.Ask? && e.r.Remove?) || (e.Handle? && e.h.Abandon?) || (e.System? && e.y.Lose?)
    || (e.Handle? && e.h.CleanUp? && e.h.left.Gone?) || (e.Ask? && e.r.RemoveFails? && e.r.left.Gone?)
  }

  /** A successful call leaves what it was given, a failed one leaves that, what was there, nothing, or a mixture;
      deletions leave nothing; and no other step but a crash of the process touches the workload. */
  lemma StepWorkload(s: Sys, e: Event)
    requires Enabled(s, e)
    ensures forall spec :: Hands(s, e, spec) ==>
      && Do(s, e).applied == s.applied + [spec]
      && ((e.Deploy? && e.d.ApplyOk?) || (e.Handle? && e.h.RollbackOk?) ==> Do(s, e).workload == Some(spec))
      && (e.Deploy? && e.d.ApplyFails? ==> Leaves(s.workload, Do(s, e).workload, spec, e.d.left))
      && (e.Handle? && e.h.RollbackFails? ==> Leaves(s.workload, Do(s, e).workload, spec, e.h.left))
    ensures (forall spec :: !Hands(s, e, spec)) ==> Do(s, e).applied == s.applied
    ensures Deletes(e) ==> Do(s, e).workload.None?
    ensures !Deletes(e) && (forall spec :: !Hands(s, e, spec)) && !(e.System? && e.y.Crash?) ==>
      Do(s, e).workload == s.workload
  {
    if e.Deploy? && (e.d.ApplyOk? || e.d.ApplyFails?) { assert Hands(s, e, PhaseAt(s, e).spec); }
    if e.Handle? && (e.h.RollbackOk? || e.h.RollbackFails?) && PhaseAt(s, e).RollingBack? {
      assert Hands(s, e, PhaseAt(s, e).spec);
    }
  }

  /** What a deploy hands over is its version with the grant of the moment it reads it. */
  lemma SpecIsGrant(s: Sys, e: Event)
    requires Enabled(s, e)
    ensures e.Deploy? && e.d.ReadSpec? && s.row.approved.Some? ==>
      var p := Do(s, e).tasks[e.id];
      p.Calling? && p.spec == Workload(PhaseAt(s, e).digest, s.row.approved.value) && p.prior == PhaseAt(s, e).prior
    ensures e.Handle? && e.h.ReadRollback? && s.row.approved.Some? && PhaseAt(s, e).prior.Some? ==>
      var p := Do(s, e).tasks[e.id];
      p.RollingBack? && p.spec == Workload(PhaseAt(s, e).prior.value, s.row.approved.value)
  {
  }

  /** In every unsplit run a removed model runs nothing. */
  lemma {:induction false} RemovedRunsNothing(s: Sys, es: seq<Event>, owner: Option<nat>)
    requires IsRun(s, es) && Unsplit(s, es) && OwnedBy(s, owner) && (s.row.state.Removed? ==> s.workload.None?)
    ensures After(s, es).row.state.Removed? ==> After(s, es).workload.None?
    decreases es
  {
    if es != [] {
      var s' := Do(s, es[0]);
      StepKeepsOwned(s, es[0], owner);
      StepMakes(s, es[0]);
      if s'.row.state.Removed? { RemovedOnce(s, es[0], owner); }
      RemovedRunsNothing(s', es[1..], NextOwner(s, s', owner));
    }
  }

  lemma RemovedOnce(s: Sys, e: Event, owner: Option<nat>)
    requires Enabled(s, e) && OwnedBy(s, owner) && !Splits(s, e) && Do(s, e).row.state.Removed?
    requires s.row.state.Removed? ==> s.workload.None?
    ensures Do(s, e).workload.None?
  {
    StepMakes(s, e);
    StepWorkload(s, e);
    if !(e.Ask? && e.r.Remove?) {
      IdleHandsNothing(s, e, owner);
    }
  }

  lemma IdleHandsNothing(s: Sys, e: Event, owner: Option<nat>)
    requires Enabled(s, e) && OwnedBy(s, owner) && !Busy(s.row.state)
    ensures forall spec :: !Hands(s, e, spec)
  {
  }

  // ----- where faults strike -----

  /** A fault that can strike the task at this point. */
  function FaultAt(id: nat, p: Phase): Event {
    match p
    case Queued(_, _) => Guard(id, EarlyCrash)
    case Applying(_, _, _) => Deploy(id, Fail)
    case Calling(_, _, _) => Deploy(id, ApplyFails(Torn))
    case Applied(_, _) => Deploy(id, Fail)
    case Failing(_, _, _) => Guard(id, HandlerCrash)
    case RollingBack(_, _, _) => Handle(id, RollbackFails(Torn))
    case RolledBack(_, _) => Handle(id, RollbackFails(Torn))
    case Doomed(_, _) => Guard(id, HandlerCrash)
    case CleaningUp => Guard(id, TailCrash)
    case Tail => Guard(id, TailCrash)
    case WakeQueued => Guard(id, EarlyCrash)
    case Waking => Guard(id, HandlerCrash)
    case Crashed(_) => Guard(id, RepairFails)
    case CrashedLate => Guard(id, RepairFails)
  }

  /** The runs that the theorems are about have faults at every point of every task: it can die or its call can fail
      wherever it is, its handler can die when it is about to record a rollback, its wake can fail, a GPU can be awaited
      in each of the three waits, and the process can crash at any moment. */
  lemma FaultsStrikeAnywhere(s: Sys, id: nat)
    requires Live(s, id) && !s.sleeper
    ensures !((s.tasks[id].Queued? || s.tasks[id].WakeQueued?) && s.lock.Some?) ==> Enabled(s, FaultAt(id, s.tasks[id]))
    ensures s.tasks[id].RolledBack? ==> Enabled(s, Guard(id, HandlerCrash))
    ensures s.tasks[id].Waking? ==> Enabled(s, Wake(id, WakeFails))
    ensures s.tasks[id].Applied? || s.tasks[id].RolledBack? || s.tasks[id].Waking? ==>
      forall waiting :: Enabled(s, Deploy(id, GpuWait(waiting)))
    ensures s.tasks[id].Failing? && s.row.state.Removed? ==>
      Enabled(s, Handle(id, Abandon)) && !Enabled(s, Handle(id, ReadRollback))
    ensures Enabled(s, System(Crash(Untouched))) && Enabled(s, System(Crash(Gone))) && Enabled(s, System(Lose))
    ensures CallInFlight(s).Some? ==> forall left :: Enabled(s, System(Crash(left)))
  {
  }

  // ----- the version that failed -----

  /** A deploy of `d` records its failure, rolled back or not. */
  predicate Fails(s: Sys, e: Event, d: Digest)
    requires Enabled(s, e)
  {
    && e.Handle?
    && ((e.h.RecordRolledBack? && PhaseAt(s, e).RolledBack? && PhaseAt(s, e).digest == d)
        || (e.h.RecordFailed? && PhaseAt(s, e).Doomed? && PhaseAt(s, e).digest == d))
  }

  /** An explicit redeploy wins its claim, or a removed model is registered again. */
  predicate ForgetsFailure(s: Sys, e: Event) {
    || (WinsClaim(s, e) && e.r.Begin? && e.r.clearFailed)
    || (e.Ask? && e.r.Reregister? && e.r.removed.failed.Some?)
  }

  lemma StepFails(s: Sys, e: Event)
    requires Enabled(s, e)
    ensures forall d :: Fails(s, e, d) ==> Do(s, e).row.failed == Some(d)
    ensures ForgetsFailure(s, e) ==> Do(s, e).row.failed.None?
    ensures !ForgetsFailure(s, e) && (forall d :: !Fails(s, e, d)) ==> Do(s, e).row.failed == s.row.failed
  {
    if e.Handle? && (e.h.RecordRolledBack? || e.h.RecordFailed?) { assert Fails(s, e, PhaseAt(s, e).digest); }
  }

  ghost predicate FailureStands(s: Sys, es: seq<Event>)
    requires IsRun(s, es)
    decreases es
  {
    es == [] ||
    (!ForgetsFailure(s, es[0]) && (forall d :: !Fails(s, es[0], d)) && FailureStands(Do(s, es[0]), es[1..]))
  }

  /** A deploy of `d` has failed, and since then none has, and nothing has forgotten it. */
  ghost predicate LastFails(s: Sys, es: seq<Event>, d: Digest)
    requires IsRun(s, es)
    decreases es
  {
    es != [] &&
    ((Fails(s, es[0], d) && FailureStands(Do(s, es[0]), es[1..])) || LastFails(Do(s, es[0]), es[1..], d))
  }

  lemma {:induction false} FailedIsLast(s: Sys, es: seq<Event>, d: Digest)
    requires IsRun(s, es)
    ensures After(s, es).row.failed == Some(d) <==>
      LastFails(s, es, d) || (FailureStands(s, es) && s.row.failed == Some(d))
    decreases es
  {
    if es != [] {
      StepFails(s, es[0]);
      FailedIsLast(Do(s, es[0]), es[1..], d);
    }
  }

  // ----- the version that waits -----

  /** The final record of a deploy of `d`: success, rollback or failure. */
  predicate Closes(s: Sys, e: Event, d: Digest)
    requires Enabled(s, e)
  {
    Fails(s, e, d) || (Recorded(s, e) && PhaseAt(s, e).Applied? && PhaseAt(s, e).digest == d)
  }

  /** A version stops waiting when its deploy is over, however it ended; otherwise only submissions, decisions and a
      removal say which one waits. */
  lemma StepPending(s: Sys, e: Event)
    requires Enabled(s, e)
    ensures forall d :: Closes(s, e, d) ==>
      Do(s, e).row.pending == if s.row.pending == Some(d) then None else s.row.pending
    ensures e.Ask? && e.r.SetPending? ==> Do(s, e).row.pending == e.r.pending
    ensures e.Ask? && e.r.Remove? ==> Do(s, e).row.pending.None?
    ensures !(e.Ask? && (e.r.SetPending? || e.r.Remove?)) && (forall d :: !Closes(s, e, d)) ==>
      Do(s, e).row.pending == s.row.pending
  {
    if e.Handle? && (e.h.RecordRolledBack? || e.h.RecordFailed?) { assert Closes(s, e, PhaseAt(s, e).digest); }
    if Recorded(s, e) { assert Closes(s, e, PhaseAt(s, e).digest); }
  }

  // ----- the grant, the mode and the recorded version -----

  /** Only an approval that wins its claim changes the grant, to what it granted, and a re-registration drops it. */
  lemma StepGrant(s: Sys, e: Event)
    requires Enabled(s, e)
    ensures WinsClaim(s, e) && e.r.Approve? ==>
      && Do(s, e).grants == s.grants + [Grant(e.r.requested, e.r.granted)]
      && (Do(s, e).row.approved == Some(e.r.granted)
          || (e.r.copyGrant == Some(e.r.granted) && Do(s, e).row.approved == s.row.approved))
    ensures e.Ask? && e.r.Reregister? && e.r.removed.approved.Some? ==> Do(s, e).row.approved.None?
    ensures !(WinsClaim(s, e) && e.r.Approve?) ==> Do(s, e).grants == s.grants
    ensures !(WinsClaim(s, e) && e.r.Approve?) && !(e.Ask? && e.r.Reregister? && e.r.removed.approved.Some?) ==>
      Do(s, e).row.approved == s.row.approved
    ensures !(e.Ask? && e.r.Reregister?) ==> Do(s, e).row.mode == s.row.mode
    ensures e.Ask? && e.r.Reregister? && e.r.removed.mode == s.row.mode ==> Do(s, e).row.mode == e.r.mode
  {
  }

  /** The final record of a successful deploy makes its version current, a removal clears it, nothing else touches it.
      */
  lemma StepCurrent(s: Sys, e: Event)
    requires Enabled(s, e)
    ensures Recorded(s, e) ==> Do(s, e).row.current == Some(PhaseAt(s, e).digest)
    ensures e.Ask? && e.r.Remove? ==> Do(s, e).row.current.None? && Do(s, e).row.previous.None?
    ensures !Recorded(s, e) && !(e.Ask? && e.r.Remove?) ==> SameVersions(s.row, Do(s, e).row)
  {
    match e
    case Handle(id, h) => HandleKeepsVersions(s, id, h);
    case Wake(id, w) => WakeKeepsVersions(s, id, w);
    case Guard(id, g) => GuardKeepsVersions(s, id, g);
    case System(y) => SystemKeepsVersions(s, y);
    case _ =>
  }

  // ----- where a busy model ends -----

  /** The model is settled on `d` with its grant, and that is what runs. */
  predicate Serves(row: Row, d: Digest, end: Sys) {
    && end.row.approved == row.approved && row.approved.Some? && end.row.current == Some(d)
    && end.row.state == (if row.mode.Sync? then Ready else Sleeping)
    && end.workload == Some(Workload(d, row.approved.value))
  }

  /** The model is back on `d`, ready, and `bad` is remembered as failed. */
  predicate BackOn(row: Row, d: Digest, bad: Digest, end: Sys) {
    && end.row.approved == row.approved && row.approved.Some?
    && end.row.state.Ready? && end.row.current == Some(d) && end.row.failed == Some(bad)
  }

  predicate GaveUp(row: Row, bad: Digest, end: Sys) {
    end.row.state.Failed? && end.row.current == row.current && end.row.failed == Some(bad)
  }

  /** Where the model ends if nothing goes wrong for the task that owns it from here on. */
  predicate Reached(s: Sys, p: Phase, end: Sys) {
    var row := s.row;
    match p
    case Queued(d, _) => if row.approved.Some? then Serves(row, d, end) else GaveUp(row, d, end)
    case Applying(d, _, _) => if row.approved.Some? then Serves(row, d, end) else GaveUp(row, d, end)
    case Calling(d, _, _) => Serves(row, d, end)
    case Applied(d, _) =>
      && end.row.approved == row.approved && end.row.current == Some(d) && end.workload == s.workload
      && end.row.state == (if row.mode.Sync? then Ready else Sleeping)
    case Failing(d, prior, _) =>
      if prior.Some? && row.approved.Some? then
        BackOn(row, prior.value, d, end) && end.workload == Some(Workload(prior.value, row.approved.value))
      else GaveUp(row, d, end)
    case RollingBack(d, back, _) =>
      BackOn(row, back, d, end) && end.workload == Some(Workload(back, row.approved.value))
    case RolledBack(d, back) => BackOn(row, back, d, end) && end.workload == s.workload
    case Doomed(d, _) => GaveUp(row, d, end)
    case WakeQueued => end.row.state.Ready? && end.row.current == row.current
    case Waking => end.row.state.Ready? && end.row.current == row.current
    case Crashed(_) =>
      && end.row.current == row.current
      && end.row.state == (if row.current.None? then Failed else if row.mode.Sync? then Ready else Sleeping)
    case _ => true
  }

  /** The model has stopped being busy here, or its owner still leads to `end`. */
  predicate Leads(s: Sys, id: nat, end: Sys) {
    if Busy(s.row.state) then id in s.tasks && Reached(s, s.tasks[id], end) else end == s
  }

  predicate Deploys(p: Phase) { p.Queued? || p.Applying? || p.Calling? || p.Applied? }

  lemma DeployTurnReaches(s: Sys, id: nat, end: Sys)
    requires id in s.tasks && Knows(s.row, s.workload, s.tasks[id]) && Deploys(s.tasks[id])
    requires s.row.current.Some? ==> s.row.approved.Some?
    requires Busy(s.row.state) && Enabled(s, NextStep(s, id)) && Leads(Do(s, NextStep(s, id)), id, end)
    ensures Reached(s, s.tasks[id], end)
  {
  }

  lemma OtherTurnReaches(s: Sys, id: nat, end: Sys)
    requires id in s.tasks && Knows(s.row, s.workload, s.tasks[id]) && IsOwner(s.tasks[id]) && !Deploys(s.tasks[id])
    requires s.row.current.Some? ==> s.row.approved.Some?
    requires Busy(s.row.state) && (s.tasks[id].WakeQueued? ==> s.row.state.Starting?)
    requires Enabled(s, NextStep(s, id)) && Leads(Do(s, NextStep(s, id)), id, end)
    ensures Reached(s, s.tasks[id], end)
  {
  }

  /** One turn of the owner, or of the task it waits for, keeps the end in view. */
  lemma TurnReaches(s: Sys, owner: Option<nat>, id: nat, end: Sys)
    requires OwnedBy(s, owner) && Basic(s) && s.status.Running? && Busy(s.row.state) && owner.Some?
    requires id == if s.lock.Some? then s.lock.value else owner.value
    requires Enabled(s, NextStep(s, id)) && Leads(Do(s, NextStep(s, id)), owner.value, end)
    ensures Reached(s, s.tasks[owner.value], end)
  {
    assert Knows(s.row, s.workload, s.tasks[owner.value]);
    if id != owner.value {
      assert s.tasks[id].CleaningUp? || s.tasks[id].Tail?;
      assert s.tasks[owner.value].Queued? || s.tasks[owner.value].WakeQueued? || s.tasks[owner.value].Crashed?;
    } else if Deploys(s.tasks[id]) {
      DeployTurnReaches(s, id, end);
    } else {
      OtherTurnReaches(s, id, end);
    }
  }

  /** A turn brings the end closer and, while the model is busy, leaves it to the same owner. */
  lemma Turn(s: Sys, owner: Option<nat>) returns (id: nat)
    requires OwnedBy(s, owner) && Basic(s) && s.status.Running? && Busy(s.row.state)
    ensures owner.Some? && id == (if s.lock.Some? then s.lock.value else owner.value) && id in s.tasks
    ensures Enabled(s, NextStep(s, id)) && FaultFree(NextStep(s, id))
    ensures var s' := Do(s, NextStep(s, id));
      && s'.status.Running? && Basic(s') && OwnedBy(s', NextOwner(s, s', owner))
      && Distance(s', NextOwner(s, s', owner)) < Distance(s, owner)
      && (Busy(s'.row.state) ==> NextOwner(s, s', owner) == owner)
  {
    var e;
    id, e := OneTurn(s, owner);
    StepKeepsBasic(s, e, owner);
    SameOwner(s, Do(s, e), id, owner);
  }

  lemma SameOwner(s: Sys, s': Sys, id: nat, owner: Option<nat>)
    requires TurnTaken(s, s', id, owner) && OwnedBy(s', NextOwner(s, s', owner))
    ensures Busy(s'.row.state) ==> NextOwner(s, s', owner) == owner
  {
  }

  lemma {:induction false} Ends(s: Sys, owner: Option<nat>) returns (es: seq<Event>)
    requires OwnedBy(s, owner) && Basic(s) && s.status.Running? && Busy(s.row.state)
    ensures IsRun(s, es) && |es| <= Distance(s, owner) && (forall e :: e in es ==> FaultFree(e))
    ensures After(s, es).status.Running? && !Busy(After(s, es).row.state)
    ensures owner.Some? && owner.value in s.tasks && Reached(s, s.tasks[owner.value], After(s, es))
    decreases Distance(s, owner)
  {
    var id := Turn(s, owner);
    var e := NextStep(s, id);
    var s' := Do(s, e);
    var rest := [];
    if Busy(s'.row.state) { rest := Ends(s', owner); }
    es := [e] + rest;
    Cons(s, e, rest);
    TurnReaches(s, owner, id, After(s, es));
  }

  /** From every busy state of every unsplit run at most ten fault-free steps lead to the end that the owner is after: a
      deploy serves its version with the grant, a failed one is back on the recorded version or gives up, a wake is
      ready, a dead task is repaired. */
  lemma BusyModelsEnd(mode: Mode, es: seq<Event>) returns (id: nat, more: seq<Event>)
    requires IsRun(Initial(mode), es) && Unsplit(Initial(mode), es)
    requires After(Initial(mode), es).status.Running? && Busy(After(Initial(mode), es).row.state)
    ensures id in After(Initial(mode), es).tasks && IsOwner(After(Initial(mode), es).tasks[id])
    ensures IsRun(After(Initial(mode), es), more) && |more| <= 10 && forall e :: e in more ==> FaultFree(e)
    ensures var s := After(Initial(mode), es); Reached(s, s.tasks[id], After(s, more))
  {
    var owner := Reachable(mode, es);
    more := Ends(After(Initial(mode), es), owner);
    id := owner.value;
  }

  /** A wake that wins its claim ends ready, if nothing goes wrong. */
  lemma WakesEndReady(mode: Mode, es: seq<Event>) returns (more: seq<Event>)
    requires IsRun(Initial(mode), es) && Unsplit(Initial(mode), es)
    requires CanWrite(After(Initial(mode), es)) && After(Initial(mode), es).row.state.Sleeping?
    ensures var s := Do(After(Initial(mode), es), Ask(BeginWake(Sleeping)));
      && IsRun(s, more) && |more| <= 10 && (forall e :: e in more ==> FaultFree(e))
      && After(s, more).row.state.Ready? && After(s, more).row.current == s.row.current
  {
    var owner := Reachable(mode, es);
    var s, wake := After(Initial(mode), es), Ask(BeginWake(Sleeping));
    var s' := Do(s, wake);
    StepKeepsOwned(s, wake, owner);
    StepKeepsBasic(s, wake, owner);
    more := Ends(s', NextOwner(s, s', owner));
  }
}
