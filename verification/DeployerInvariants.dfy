/** What every run of the deploy protocol keeps. */
module DeployerInvariants {
  import opened Options
  import opened Resources
  import opened States
  import opened Deployer

  // ----- ownership -----

  /** `owner` is the one task that has been given the model and has not made its final record. */
  ghost predicate OwnedBy(s: Sys, owner: Option<nat>) {
    && (owner.Some? ==> owner.value in s.tasks)
    && (forall id :: id in s.tasks ==> id < s.next && (IsOwner(s.tasks[id]) <==> owner == Some(id)))
    && (forall id :: id in s.tasks ==> (HoldsLock(s.tasks[id]) <==> s.lock == Some(id)))
    && (s.lock.Some? ==> s.lock.value in s.tasks)
    && (s.status.Running? ==> (Busy(s.row.state) <==> owner.Some?))
    && (!s.status.Running? ==> s.tasks == map[] && !s.sleeper)
    && (s.status.Marked? ==> !Busy(s.row.state))
    && (s.sleeper ==> s.row.state.Ready?)
    && (forall id :: id in s.tasks && s.tasks[id].WakeQueued? ==> s.row.state.Starting?)
    && Blank(s.row)
  }

  ghost predicate Owned(s: Sys) { exists owner :: OwnedBy(s, owner) }

  /** A model that waits for its first approval, or is removed, has no version recorded. */
  predicate Blank(row: Row) { row.state.PendingApproval? || row.state.Removed? ==> row.current.None? }

  /** A running model is busy exactly while one task owns it. */
  ghost predicate SoleOwner(s: Sys) {
    s.status.Running? ==>
      && (Busy(s.row.state) <==> exists id :: id in s.tasks && IsOwner(s.tasks[id]))
      && (forall i, j :: i in s.tasks && j in s.tasks && IsOwner(s.tasks[i]) && IsOwner(s.tasks[j]) ==> i == j)
  }

  ghost predicate Whole(s: Sys) { SoleOwner(s) && Blank(s.row) }

  lemma OwnedIsWhole(s: Sys, owner: Option<nat>)
    requires OwnedBy(s, owner)
    ensures Whole(s)
  {
    if owner.Some? { assert IsOwner(s.tasks[owner.value]); }
  }

  /** No such step leaves the model whole. */
  lemma SplitBreaks(s: Sys, e: Event, owner: Option<nat>)
    requires OwnedBy(s, owner) && Enabled(s, e) && Splits(s, e)
    ensures !Whole(Do(s, e))
  {
    var s' := Do(s, e);
    if owner.Some? && owner.value in s'.tasks { assert IsOwner(s'.tasks[owner.value]); }
  }

  /** Who owns the model after a step. */
  ghost function NextOwner(s: Sys, s': Sys, owner: Option<nat>): Option<nat> {
    if s'.next > s.next then Some(s.next)
    else if owner.Some? && owner.value in s'.tasks && IsOwner(s'.tasks[owner.value]) then owner
    else None
  }

  predicate IsClaim(r: Request) { r.Begin? || r.Rollback? || r.Approve? || r.BeginWake? }

  /** A claim of an idle model gives it to a new task. */
  lemma SpawnKeepsOwned(s: Sys, s': Sys, p: Phase, owner: Option<nat>)
    requires OwnedBy(s, owner) && s.status.Running? && !Busy(s.row.state) && !s.sleeper
    requires s'.tasks == s.tasks[s.next := p] && s'.next == s.next + 1 && s'.lock == s.lock
    requires s'.sleeper == s.sleeper && s'.status == s.status && Busy(s'.row.state)
    requires (p.Queued? || (p.WakeQueued? && s'.row.state.Starting?))
    ensures OwnedBy(s', Some(s.next))
  {
  }

  lemma ClaimKeepsOwned(s: Sys, r: Request, owner: Option<nat>)
    requires OwnedBy(s, owner) && MayAsk(s, r) && IsClaim(r)
    ensures OwnedBy(DoAsk(s, r), NextOwner(s, DoAsk(s, r), owner))
  {
    var s' := DoAsk(s, r);
    if s'.next > s.next {
      SpawnKeepsOwned(s, s', s'.tasks[s.next], owner);
    } else {
      assert s' == s;
    }
  }

  lemma AskKeepsOwned(s: Sys, r: Request, owner: Option<nat>)
    requires OwnedBy(s, owner) && MayAsk(s, r) && !Splits(s, Ask(r))
    ensures OwnedBy(DoAsk(s, r), NextOwner(s, DoAsk(s, r), owner))
  {
    if IsClaim(r) {
      ClaimKeepsOwned(s, r, owner);
    } else {
      assert DoAsk(s, r).tasks == s.tasks;
    }
  }

  /** A task that moves on without touching the row, the lock or its ownership. */
  lemma MoveKeepsOwned(s: Sys, s': Sys, id: nat, p: Phase, owner: Option<nat>)
    requires OwnedBy(s, owner) && Live(s, id)
    requires s'.tasks == s.tasks[id := p] && s'.row.state == s.row.state && s'.row.current == s.row.current
    requires s'.next == s.next
    requires s'.lock == s.lock && s'.sleeper == s.sleeper && s'.status == s.status
    requires IsOwner(p) == IsOwner(s.tasks[id]) && HoldsLock(p) == HoldsLock(s.tasks[id]) && !p.WakeQueued?
    ensures OwnedBy(s', NextOwner(s, s', owner))
  {
  }

  lemma DeployKeepsOwned(s: Sys, id: nat, d: DeployStep, owner: Option<nat>)
    requires OwnedBy(s, owner) && Live(s, id) && MayDeploy(s, s.tasks[id], d)
    ensures OwnedBy(DoDeploy(s, id, d), NextOwner(s, DoDeploy(s, id, d), owner))
  {
    if d.ReadSpec? || d.ApplyOk? || d.ApplyFails? || d.Fail? {
      MoveKeepsOwned(s, DoDeploy(s, id, d), id, DoDeploy(s, id, d).tasks[id], owner);
    }
  }

  lemma HandleKeepsOwned(s: Sys, id: nat, h: FailureStep, owner: Option<nat>)
    requires OwnedBy(s, owner) && Live(s, id) && MayHandle(s, s.tasks[id], h)
    ensures OwnedBy(DoHandle(s, id, h), NextOwner(s, DoHandle(s, id, h), owner))
  {
    if h.ReadRollback? || h.RollbackOk? || h.RollbackFails? {
      MoveKeepsOwned(s, DoHandle(s, id, h), id, DoHandle(s, id, h).tasks[id], owner);
    }
  }

  lemma WakeKeepsOwned(s: Sys, id: nat, w: WakeStep, owner: Option<nat>)
    requires OwnedBy(s, owner) && Live(s, id) && MayWake(s, s.tasks[id], w)
    ensures OwnedBy(DoWake(s, id, w), NextOwner(s, DoWake(s, id, w), owner))
  {
  }

  lemma GuardKeepsOwned(s: Sys, id: nat, g: GuardStep, owner: Option<nat>)
    requires OwnedBy(s, owner) && Live(s, id) && MayGuard(s, s.tasks[id], g)
    requires !Splits(s, Guard(id, g))
    ensures OwnedBy(DoGuard(s, id, g), NextOwner(s, DoGuard(s, id, g), owner))
  {
    if g.Repair? || g.RepairFails? { RepairKeepsOwned(s, id, g, owner); }
  }

  lemma RepairKeepsOwned(s: Sys, id: nat, g: GuardStep, owner: Option<nat>)
    requires OwnedBy(s, owner) && Live(s, id) && MayGuard(s, s.tasks[id], g) && (g.Repair? || g.RepairFails?)
    requires !Splits(s, Guard(id, g))
    ensures OwnedBy(DoGuard(s, id, g), NextOwner(s, DoGuard(s, id, g), owner))
  {
  }

  lemma SystemKeepsOwned(s: Sys, y: SystemStep, owner: Option<nat>)
    requires OwnedBy(s, owner) && MayHappen(s, y)
    ensures OwnedBy(DoSystem(s, y), NextOwner(s, DoSystem(s, y), owner))
  {
  }

  lemma StepKeepsOwned(s: Sys, e: Event, owner: Option<nat>)
    requires OwnedBy(s, owner) && Enabled(s, e) && !Splits(s, e)
    ensures OwnedBy(Do(s, e), NextOwner(s, Do(s, e), owner))
  {
    match e
    case Ask(r) => AskKeepsOwned(s, r, owner);
    case Deploy(id, d) => DeployKeepsOwned(s, id, d, owner);
    case Handle(id, h) => HandleKeepsOwned(s, id, h, owner);
    case Wake(id, w) => WakeKeepsOwned(s, id, w, owner);
    case Guard(id, g) => GuardKeepsOwned(s, id, g, owner);
    case System(y) => SystemKeepsOwned(s, y, owner);
  }

  // ----- mutual exclusion with the cleanup of a failed deploy -----

  ghost predicate Exclusive(s: Sys) {
    && (forall id :: id in s.tasks && s.tasks[id].Crashed? ==> s.lock.None?)
    && (forall id :: id in s.tasks && s.tasks[id].CleaningUp? ==> !Settled(s.row.state))
  }

  lemma StepKeepsExclusive(s: Sys, e: Event, owner: Option<nat>)
    requires OwnedBy(s, owner) && Exclusive(s) && Enabled(s, e) && !Splits(s, e)
    ensures Exclusive(Do(s, e))
  {
    match e
    case Ask(r) => AskKeepsExclusive(s, r, owner);
    case Deploy(id, d) => DeployKeepsExclusive(s, id, d, owner);
    case Handle(id, h) => HandleKeepsExclusive(s, id, h, owner);
    case Wake(id, w) => WakeKeepsExclusive(s, id, w, owner);
    case Guard(id, g) => GuardKeepsExclusive(s, id, g, owner);
    case System(y) =>
  }

  lemma AskKeepsExclusive(s: Sys, r: Request, owner: Option<nat>)
    requires OwnedBy(s, owner) && Exclusive(s) && MayAsk(s, r)
    ensures Exclusive(DoAsk(s, r))
  {
  }

  lemma DeployKeepsExclusive(s: Sys, id: nat, d: DeployStep, owner: Option<nat>)
    requires OwnedBy(s, owner) && Exclusive(s) && Live(s, id) && MayDeploy(s, s.tasks[id], d)
    ensures Exclusive(DoDeploy(s, id, d))
  {
  }

  lemma HandleKeepsExclusive(s: Sys, id: nat, h: FailureStep, owner: Option<nat>)
    requires OwnedBy(s, owner) && Exclusive(s) && Live(s, id) && MayHandle(s, s.tasks[id], h)
    ensures Exclusive(DoHandle(s, id, h))
  {
  }

  lemma WakeKeepsExclusive(s: Sys, id: nat, w: WakeStep, owner: Option<nat>)
    requires OwnedBy(s, owner) && Exclusive(s) && Live(s, id) && MayWake(s, s.tasks[id], w)
    ensures Exclusive(DoWake(s, id, w))
  {
  }

  lemma GuardKeepsExclusive(s: Sys, id: nat, g: GuardStep, owner: Option<nat>)
    requires OwnedBy(s, owner) && Exclusive(s) && Live(s, id) && MayGuard(s, s.tasks[id], g) && !Splits(s, Guard(id, g))
    ensures Exclusive(DoGuard(s, id, g))
  {
  }

  // ----- what the running task knows -----

  predicate Matches(row: Row, w: Option<Workload>) {
    w.None? || (row.current.Some? && row.approved.Some? && w.value == Workload(row.current.value, row.approved.value))
  }

  /** The values a task carries still agree with the row. */
  predicate Knows(row: Row, w: Option<Workload>, p: Phase) {
    match p
    case Applying(_, prior, _) => prior == row.current
    case Calling(d, prior, spec) =>
      prior == row.current && row.approved.Some? && spec == Workload(d, row.approved.value)
    case Applied(d, prior) =>
      prior == row.current && row.approved.Some? && (w.None? || w.value == Workload(d, row.approved.value))
    case Failing(_, prior, _) => prior == row.current
    case RollingBack(_, back, spec) =>
      row.current == Some(back) && row.approved.Some? && spec == Workload(back, row.approved.value)
    case RolledBack(_, back) => row.current == Some(back) && Matches(row, w)
    case WakeQueued => row.current.Some?
    case Waking => row.current.Some?
    case _ => true
  }

  ghost predicate Basic(s: Sys) {
    && (forall id :: id in s.tasks ==> Knows(s.row, s.workload, s.tasks[id]))
    && (s.row.current.Some? ==> s.row.approved.Some?)
    && (Settled(s.row.state) ==> s.row.current.Some?)
    && (s.status.Marked? && s.status.redeploy.Some? ==> s.row.state.Ready? && s.row.current == s.status.redeploy)
  }

  /** With nobody owning the model, the tasks that are left carry nothing that the row could contradict. */
  lemma IdleKnows(s: Sys, owner: Option<nat>, row: Row, w: Option<Workload>)
    requires OwnedBy(s, owner) && s.status.Running? && !Busy(s.row.state)
    ensures forall id :: id in s.tasks ==> Knows(row, w, s.tasks[id])
  {
  }

  lemma ClaimKeepsBasic(s: Sys, r: Request, owner: Option<nat>)
    requires OwnedBy(s, owner) && Basic(s) && MayAsk(s, r) && IsClaim(r)
    ensures Basic(DoAsk(s, r))
  {
    if !Busy(s.row.state) { IdleKnows(s, owner, DoAsk(s, r).row, s.workload); }
  }

  lemma AskKeepsBasic(s: Sys, r: Request, owner: Option<nat>)
    requires OwnedBy(s, owner) && Basic(s) && MayAsk(s, r) && !Splits(s, Ask(r))
    ensures Basic(DoAsk(s, r))
  {
    if IsClaim(r) {
      ClaimKeepsBasic(s, r, owner);
    } else if !Busy(s.row.state) {
      IdleKnows(s, owner, DoAsk(s, r).row, DoAsk(s, r).workload);
    }
  }

  lemma RecordKeepsBasic(s: Sys, id: nat, d: DeployStep, owner: Option<nat>)
    requires OwnedBy(s, owner) && Basic(s) && Live(s, id) && MayDeploy(s, s.tasks[id], d) && d.Record?
    ensures Basic(DoDeploy(s, id, d))
  {
    assert owner == Some(id) && Knows(s.row, s.workload, s.tasks[id]);
  }

  lemma StatesKeepBasic(s: Sys, id: nat, d: DeployStep, owner: Option<nat>)
    requires OwnedBy(s, owner) && Basic(s) && Live(s, id) && MayDeploy(s, s.tasks[id], d) && (d.Start? || d.GpuWait?)
    ensures Basic(DoDeploy(s, id, d))
  {
  }

  lemma DeployKeepsBasic(s: Sys, id: nat, d: DeployStep, owner: Option<nat>)
    requires OwnedBy(s, owner) && Basic(s) && Live(s, id) && MayDeploy(s, s.tasks[id], d)
    ensures Basic(DoDeploy(s, id, d))
  {
    if d.Record? {
      RecordKeepsBasic(s, id, d, owner);
    } else if d.Start? || d.GpuWait? {
      StatesKeepBasic(s, id, d, owner);
    }
  }

  lemma FinalKeepsBasic(s: Sys, id: nat, h: FailureStep, owner: Option<nat>)
    requires OwnedBy(s, owner) && Basic(s) && Live(s, id) && MayHandle(s, s.tasks[id], h)
    requires h.RecordRolledBack? || h.RecordFailed?
    ensures Basic(DoHandle(s, id, h))
  {
    assert owner == Some(id) && Knows(s.row, s.workload, s.tasks[id]);
  }

  lemma ClosingKeepsBasic(s: Sys, id: nat, h: FailureStep, owner: Option<nat>)
    requires OwnedBy(s, owner) && Basic(s) && Live(s, id) && MayHandle(s, s.tasks[id], h)
    requires h.RecordRolledBack? || h.RecordFailed? || h.CleanUp? || h.TailDone? || h.Abandon?
    ensures Basic(DoHandle(s, id, h))
  {
    if h.RecordRolledBack? || h.RecordFailed? { FinalKeepsBasic(s, id, h, owner); }
  }

  lemma HandleKeepsBasic(s: Sys, id: nat, h: FailureStep, owner: Option<nat>)
    requires OwnedBy(s, owner) && Basic(s) && Live(s, id) && MayHandle(s, s.tasks[id], h)
    ensures Basic(DoHandle(s, id, h))
  {
    if h.RecordRolledBack? || h.RecordFailed? || h.CleanUp? || h.TailDone? || h.Abandon? {
      ClosingKeepsBasic(s, id, h, owner);
    }
  }

  lemma WakeKeepsBasic(s: Sys, id: nat, w: WakeStep, owner: Option<nat>)
    requires OwnedBy(s, owner) && Basic(s) && Live(s, id) && MayWake(s, s.tasks[id], w)
    ensures Basic(DoWake(s, id, w))
  {
  }

  lemma GuardKeepsBasic(s: Sys, id: nat, g: GuardStep, owner: Option<nat>)
    requires OwnedBy(s, owner) && Basic(s) && Live(s, id) && MayGuard(s, s.tasks[id], g)
    ensures Basic(DoGuard(s, id, g))
  {
    if g.Repair? || g.RepairFails? { RepairKeepsBasic(s, id, g, owner); }
  }

  lemma RepairKeepsBasic(s: Sys, id: nat, g: GuardStep, owner: Option<nat>)
    requires OwnedBy(s, owner) && Basic(s) && Live(s, id) && MayGuard(s, s.tasks[id], g)
    requires g.Repair? || g.RepairFails?
    ensures Basic(DoGuard(s, id, g))
  {
  }

  lemma SystemKeepsBasic(s: Sys, y: SystemStep, owner: Option<nat>)
    requires OwnedBy(s, owner) && Basic(s) && MayHappen(s, y)
    ensures Basic(DoSystem(s, y))
  {
  }

  // ----- the workload is the recorded version -----

  /** The task's history vouches for the workload. */
  predicate Trusts(p: Phase) {
    || p.WakeQueued? || p.Waking?
    || ((p.Queued? || p.Applying? || p.Failing? || p.Doomed? || p.Crashed?) && p.footing.Sound?)
  }

  ghost predicate Matching(s: Sys) {
    && (Settled(s.row.state) && !(s.status.Marked? && s.status.redeploy.Some?) ==> Matches(s.row, s.workload))
    && (forall id :: id in s.tasks && Trusts(s.tasks[id]) ==> Matches(s.row, s.workload))
  }

  lemma ClaimKeepsMatching(s: Sys, r: Request, owner: Option<nat>)
    requires OwnedBy(s, owner) && Basic(s) && Matching(s) && MayAsk(s, r) && IsClaim(r)
    ensures Matching(DoAsk(s, r))
  {
  }

  lemma AskKeepsMatching(s: Sys, r: Request, owner: Option<nat>)
    requires OwnedBy(s, owner) && Basic(s) && Matching(s) && MayAsk(s, r) && !Splits(s, Ask(r))
    ensures Matching(DoAsk(s, r))
  {
    if IsClaim(r) { ClaimKeepsMatching(s, r, owner); }
  }

  lemma DeployKeepsMatching(s: Sys, id: nat, d: DeployStep, owner: Option<nat>)
    requires OwnedBy(s, owner) && Basic(s) && Matching(s) && Live(s, id) && MayDeploy(s, s.tasks[id], d)
    ensures Matching(DoDeploy(s, id, d))
  {
  }

  lemma HandleKeepsMatching(s: Sys, id: nat, h: FailureStep, owner: Option<nat>)
    requires OwnedBy(s, owner) && Basic(s) && Matching(s) && Live(s, id) && MayHandle(s, s.tasks[id], h)
    ensures Matching(DoHandle(s, id, h))
  {
  }

  lemma WakeKeepsMatching(s: Sys, id: nat, w: WakeStep, owner: Option<nat>)
    requires OwnedBy(s, owner) && Basic(s) && Matching(s) && Live(s, id) && MayWake(s, s.tasks[id], w)
    ensures Matching(DoWake(s, id, w))
  {
  }

  lemma GuardKeepsMatching(s: Sys, id: nat, g: GuardStep, owner: Option<nat>)
    requires OwnedBy(s, owner) && Basic(s) && Matching(s) && Live(s, id) && MayGuard(s, s.tasks[id], g)
    requires !Splits(s, Guard(id, g)) && LapseOf(s, Guard(id, g)).None?
    ensures Matching(DoGuard(s, id, g))
  {
  }

  lemma SystemKeepsMatching(s: Sys, y: SystemStep, owner: Option<nat>)
    requires OwnedBy(s, owner) && Basic(s) && Matching(s) && MayHappen(s, y)
    requires LapseOf(s, System(y)).None?
    ensures Matching(DoSystem(s, y))
  {
  }

  // ----- approved resources -----

  ghost predicate WasGranted(grants: seq<Grant>, r: Resources) {
    exists i :: 0 <= i < |grants| && grants[i].granted == r
  }

  ghost predicate GrantedSpec(grants: seq<Grant>, w: Workload) { w.Workload? && WasGranted(grants, w.resources) }

  /** Nothing reaches the cluster that an admin has not granted to this model, and no grant exceeds its request. */
  ghost predicate Approved(s: Sys) {
    && (forall i :: 0 <= i < |s.grants| ==> Within(s.grants[i].granted, s.grants[i].requested))
    && (s.row.approved.Some? ==> WasGranted(s.grants, s.row.approved.value))
    && (forall i :: 0 <= i < |s.applied| ==> GrantedSpec(s.grants, s.applied[i]))
    && (forall id :: id in s.tasks && s.tasks[id].Calling? ==> GrantedSpec(s.grants, s.tasks[id].spec))
    && (forall id :: id in s.tasks && s.tasks[id].RollingBack? ==> GrantedSpec(s.grants, s.tasks[id].spec))
    && (s.workload.Some? && s.workload.value.Workload? ==> GrantedSpec(s.grants, s.workload.value))
  }

  lemma GrantsGrow(s: Sys, g: Grant)
    requires Approved(s) && Within(g.granted, g.requested)
    ensures Approved(s.(grants := s.grants + [g])) && WasGranted(s.grants + [g], g.granted)
  {
    var grants := s.grants + [g];
    forall r | WasGranted(s.grants, r) ensures WasGranted(grants, r) {
      var i :| 0 <= i < |s.grants| && s.grants[i].granted == r;
      assert grants[i].granted == r;
    }
    assert grants[|s.grants|].granted == g.granted;
  }

  lemma AskKeepsApproved(s: Sys, r: Request)
    requires Approved(s) && MayAsk(s, r)
    ensures Approved(DoAsk(s, r))
  {
    if r.Approve? && Claim(s, r.copy, true, r.digest, GrantWritten(s.row, r.copyGrant, r.granted)).Some? {
      GrantsGrow(s, Grant(r.requested, r.granted));
    }
  }

  lemma DeployKeepsApproved(s: Sys, id: nat, d: DeployStep)
    requires Approved(s) && Live(s, id) && MayDeploy(s, s.tasks[id], d)
    ensures Approved(DoDeploy(s, id, d))
  {
  }

  lemma HandleKeepsApproved(s: Sys, id: nat, h: FailureStep)
    requires Approved(s) && Live(s, id) && MayHandle(s, s.tasks[id], h)
    ensures Approved(DoHandle(s, id, h))
  {
  }

  lemma WakeKeepsApproved(s: Sys, id: nat, w: WakeStep)
    requires Approved(s) && Live(s, id) && MayWake(s, s.tasks[id], w)
    ensures Approved(DoWake(s, id, w))
  {
  }

  lemma GuardKeepsApproved(s: Sys, id: nat, g: GuardStep)
    requires Approved(s) && Live(s, id) && MayGuard(s, s.tasks[id], g)
    ensures Approved(DoGuard(s, id, g))
  {
  }

  lemma SystemKeepsApproved(s: Sys, y: SystemStep)
    requires Approved(s) && MayHappen(s, y)
    ensures Approved(DoSystem(s, y))
  {
  }
}
