/** The deploy protocol over whole runs: who owns a model, what runs for it, what was approved, and exactly
    where the recorded version and the running one can come apart. */
module DeployerTheorems {
  import opened Options
  import opened Resources
  import opened States
  import opened Deployer
  import opened DeployerInvariants

  lemma {:induction false} RunKeepsOwned(s: Sys, es: seq<Event>, owner: Option<nat>)
    requires IsRun(s, es) && Unsplit(s, es) && OwnedBy(s, owner) && Exclusive(s) && Basic(s)
    ensures Owned(After(s, es)) && Exclusive(After(s, es)) && Basic(After(s, es))
    ensures Careful(s, es) && Matching(s) ==> Matching(After(s, es))
    decreases es
  {
    if es != [] {
      var e := es[0];
      var s' := Do(s, e);
      StepKeepsOwned(s, e, owner);
      StepKeepsExclusive(s, e, owner);
      StepKeepsBasic(s, e, owner);
      if Matching(s) && LapseOf(s, e).None? { StepKeepsMatching(s, e, owner); }
      RunKeepsOwned(s', es[1..], NextOwner(s, s', owner));
    }
  }

  lemma StepKeepsBasic(s: Sys, e: Event, owner: Option<nat>)
    requires OwnedBy(s, owner) && Basic(s) && Enabled(s, e) && !Splits(s, e)
    ensures Basic(Do(s, e))
  {
    match e
    case Ask(r) => AskKeepsBasic(s, r, owner);
    case Deploy(id, d) => DeployKeepsBasic(s, id, d, owner);
    case Handle(id, h) => HandleKeepsBasic(s, id, h, owner);
    case Wake(id, w) => WakeKeepsBasic(s, id, w, owner);
    case Guard(id, g) => GuardKeepsBasic(s, id, g, owner);
    case System(y) => SystemKeepsBasic(s, y, owner);
  }

  lemma StepKeepsMatching(s: Sys, e: Event, owner: Option<nat>)
    requires OwnedBy(s, owner) && Basic(s) && Matching(s) && Enabled(s, e)
    requires !Splits(s, e) && LapseOf(s, e).None?
    ensures Matching(Do(s, e))
  {
    match e
    case Ask(r) => AskKeepsMatching(s, r, owner);
    case Deploy(id, d) => DeployKeepsMatching(s, id, d, owner);
    case Handle(id, h) => HandleKeepsMatching(s, id, h, owner);
    case Wake(id, w) => WakeKeepsMatching(s, id, w, owner);
    case Guard(id, g) => GuardKeepsMatching(s, id, g, owner);
    case System(y) => SystemKeepsMatching(s, y, owner);
  }

  // ----- ownership -----

  /** At every moment of the run. */
  ghost predicate WholeAlong(s: Sys, es: seq<Event>)
    requires IsRun(s, es)
    decreases es
  {
    Whole(s) && (es == [] || WholeAlong(Do(s, es[0]), es[1..]))
  }

  lemma {:induction false} WholeIffUnsplit(s: Sys, es: seq<Event>, owner: Option<nat>)
    requires IsRun(s, es) && OwnedBy(s, owner)
    ensures WholeAlong(s, es) <==> Unsplit(s, es)
    decreases es
  {
    OwnedIsWhole(s, owner);
    if es != [] {
      if Splits(s, es[0]) {
        SplitBreaks(s, es[0], owner);
      } else {
        StepKeepsOwned(s, es[0], owner);
        WholeIffUnsplit(Do(s, es[0]), es[1..], NextOwner(s, Do(s, es[0]), owner));
      }
    }
  }

  /** All along a run, a running model is busy exactly while one task owns it, and one that waits for its first approval
      or is removed has no version recorded, if and only if no step of the run splits. */
  lemma OwnershipIff(mode: Mode, es: seq<Event>)
    requires IsRun(Initial(mode), es)
    ensures WholeAlong(Initial(mode), es) <==> Unsplit(Initial(mode), es)
  {
    assert OwnedBy(Initial(mode), None);
    WholeIffUnsplit(Initial(mode), es, None);
  }

  lemma Reachable(mode: Mode, es: seq<Event>) returns (owner: Option<nat>)
    requires IsRun(Initial(mode), es) && Unsplit(Initial(mode), es)
    ensures OwnedBy(After(Initial(mode), es), owner) && Exclusive(After(Initial(mode), es))
    ensures Basic(After(Initial(mode), es))
  {
    assert OwnedBy(Initial(mode), None);
    RunKeepsOwned(Initial(mode), es, None);
    owner :| OwnedBy(After(Initial(mode), es), owner);
  }

  lemma BusyMeansOwned(mode: Mode, es: seq<Event>)
    requires IsRun(Initial(mode), es) && Unsplit(Initial(mode), es)
    ensures Whole(After(Initial(mode), es))
  {
    var owner := Reachable(mode, es);
    OwnedIsWhole(After(Initial(mode), es), owner);
  }

  /** A failed deploy's cleanup never deletes the workload of a ready or sleeping model, and while a `sleep`
      request scales a model down no task is about to change its workload. */
  lemma BackendCallsExclude(mode: Mode, es: seq<Event>)
    requires IsRun(Initial(mode), es) && Unsplit(Initial(mode), es)
    ensures var s := After(Initial(mode), es);
      && (forall id :: id in s.tasks && s.tasks[id].CleaningUp? ==> !Settled(s.row.state))
      && (s.sleeper ==> forall id :: id in s.tasks ==> s.tasks[id].Tail? || s.tasks[id].CrashedLate?)
      && (forall i, j :: i in s.tasks && j in s.tasks && HoldsLock(s.tasks[i]) && HoldsLock(s.tasks[j]) ==> i == j)
  {
    var owner := Reachable(mode, es);
  }

  predicate IsIdle(st: State) { st in {PendingApproval, Ready, Sleeping, Failed} }

  /** What the request's own copy of the row must show. */
  predicate CopyAllows(r: Request) {
    match r
    case Begin(copy, copyApproved, _, _) => IsIdle(copy) && copyApproved
    case Rollback(copy, copyApproved, copyPrevious) => IsIdle(copy) && copyApproved && copyPrevious.Some?
    case Approve(copy, _, _, _, _) => IsIdle(copy)
    case BeginWake(copy) => copy.Sleeping?
    case SleepClaim(copy) => copy.Ready?
    case _ => false
  }

  /** What the committed row must show. */
  predicate RowAllows(row: Row, r: Request) {
    if r.BeginWake? then row.state.Sleeping?
    else if r.SleepClaim? then row.state.Ready?
    else IsIdle(row.state)
  }

  /** A claim takes effect if and only if its copy and the committed row both allow it; a request that loses changes
      nothing: no state, no task, no backend call. */
  lemma ClaimsWinIff(s: Sys, r: Request)
    requires MayAsk(s, r) && (IsClaim(r) || r.SleepClaim?)
    ensures DoAsk(s, r) != s <==> CopyAllows(r) && RowAllows(s.row, r)
  {
    if IsClaim(r) && CopyAllows(r) && RowAllows(s.row, r) { assert DoAsk(s, r).next == s.next + 1; }
  }

  /** Whatever a request holds, it does nothing to a busy or a removed model, a wake does nothing to a model that is
      not sleeping, and a sleep nothing to one that is not ready. */
  lemma LosersChangeNothing(s: Sys, r: Request)
    requires MayAsk(s, r) && (IsClaim(r) || r.SleepClaim?) && !RowAllows(s.row, r)
    ensures DoAsk(s, r) == s
  {
    ClaimsWinIff(s, r);
  }

  // ----- the recorded version runs -----

  /** In every careful run, a ready or sleeping model whose workload exists runs exactly its recorded version
      with exactly its approved resources. */
  lemma SettledMeansRecorded(mode: Mode, es: seq<Event>)
    requires IsRun(Initial(mode), es) && Unsplit(Initial(mode), es) && Careful(Initial(mode), es)
    ensures var s := After(Initial(mode), es);
      s.status.Running? && Settled(s.row.state) && s.workload.Some? ==>
        && s.row.current.Some? && s.row.approved.Some?
        && s.workload.value == Workload(s.row.current.value, s.row.approved.value)
  {
    assert OwnedBy(Initial(mode), None);
    RunKeepsOwned(Initial(mode), es, None);
  }

  /** Ready or sleeping in the committed row (and not about to be redeployed by a recovery) means: the recorded
      version runs, or nothing does. */
  predicate SettledOk(s: Sys) {
    Settled(s.row.state) && !(s.status.Marked? && s.status.redeploy.Some?) ==> Matches(s.row, s.workload)
  }

  ghost predicate Always(s: Sys, es: seq<Event>)
    requires IsRun(s, es)
    decreases es
  {
    SettledOk(s) && (es == [] || Always(Do(s, es[0]), es[1..]))
  }

  /** At every lapse, what is left running happens to be the recorded version. */
  ghost predicate Lucky(s: Sys, es: seq<Event>)
    requires IsRun(s, es)
    decreases es
  {
    es == [] ||
    ((LapseOf(s, es[0]).Some? ==> Matches(s.row, Do(s, es[0]).workload)) && Lucky(Do(s, es[0]), es[1..]))
  }

  /** The guarantee is never lost but at a lapse, and one that happens to find the right workload does no harm. */
  lemma {:induction false} AlwaysIffLucky(s: Sys, es: seq<Event>, owner: Option<nat>)
    requires IsRun(s, es) && Unsplit(s, es) && OwnedBy(s, owner) && Basic(s) && Matching(s)
    ensures Always(s, es) <==> Lucky(s, es)
    decreases es
  {
    if es != [] {
      var e := es[0];
      StepKeepsOwned(s, e, owner);
      StepKeepsBasic(s, e, owner);
      if LapseOf(s, e).Some? {
        LapseStep(s, e, owner);
      } else {
        StepKeepsMatching(s, e, owner);
      }
      if Matching(Do(s, e)) {
        AlwaysIffLucky(Do(s, e), es[1..], NextOwner(s, Do(s, e), owner));
      }
    }
  }

  lemma LapseStep(s: Sys, e: Event, owner: Option<nat>)
    requires OwnedBy(s, owner) && Basic(s) && Matching(s) && Enabled(s, e) && LapseOf(s, e).Some?
    ensures Matches(s.row, Do(s, e).workload) <==> SettledOk(Do(s, e))
    ensures SettledOk(Do(s, e)) ==> Matching(Do(s, e))
  {
  }

  /** A recovery cut short leaves, after the next start, a ready model that nobody will deploy again, whatever runs. */
  lemma RecoveryCutIsFinal(s: Sys, owner: Option<nat>)
    requires OwnedBy(s, owner) && Basic(s) && s.status.Marked? && s.status.redeploy.Some?
    ensures IsRun(s, [System(Crash(Untouched)), System(RecoverMark), System(RecoverBegin)])
    ensures var s' := After(s, [System(Crash(Untouched)), System(RecoverMark), System(RecoverBegin)]);
      && s'.status.Running? && s'.row == s.row && s'.row.state.Ready? && s'.workload == s.workload && s'.tasks == map[]
  {
    var s1 := DoSystem(s, Crash(Untouched));
    var s2 := DoSystem(s1, RecoverMark);
    var s3 := DoSystem(s2, RecoverBegin);
    AfterThree(s, System(Crash(Untouched)), System(RecoverMark), System(RecoverBegin));
  }

  lemma AfterThree(s: Sys, a: Event, b: Event, c: Event)
    requires Enabled(s, a) && Enabled(Do(s, a), b) && Enabled(Do(Do(s, a), b), c)
    ensures IsRun(s, [a, b, c]) && After(s, [a, b, c]) == Do(Do(Do(s, a), b), c)
  {
    assert [a, b, c][1..] == [b, c] && [b, c][1..] == [c] && [c][1..] == [];
    assert After(Do(Do(s, a), b), [c]) == Do(Do(Do(s, a), b), c);
    assert IsRun(Do(s, a), [b, c]) && After(Do(s, a), [b, c]) == Do(Do(Do(s, a), b), c);
  }

  // ----- what a rollback goes back to -----

  /** The version kept for a rollback is never the one recorded as current. */
  predicate Versioned(row: Row) { row.previous.Some? ==> row.current.Some? && row.previous != row.current }

  /** The final record of a deploy of `d`. */
  predicate Records(s: Sys, e: Event, d: Digest) {
    && e.Deploy? && e.d.Record? && e.id in s.tasks && s.tasks[e.id].Applied? && s.tasks[e.id].digest == d
    && !s.row.state.Removed?
  }

  /** The recorded version only changes to the one a deploy task has just applied, and then the version it replaces
      is the one a rollback goes back to; otherwise the rollback target stays. */
  predicate VersionsMove(s: Sys, e: Event, s': Sys) {
    && (s'.row.current == s.row.current ==> s'.row.previous == s.row.previous)
    && (s'.row.current != s.row.current && s'.row.current.Some? ==>
          && s'.row.previous == s.row.current
          && Records(s, e, s'.row.current.value)
          && Matches(s'.row, s'.workload))
  }

  lemma StepMovesVersions(s: Sys, e: Event, owner: Option<nat>)
    requires OwnedBy(s, owner) && Basic(s) && Versioned(s.row) && Enabled(s, e)
    ensures Versioned(Do(s, e).row) && VersionsMove(s, e, Do(s, e))
  {
    match e
    case Ask(r) => AskMovesVersions(s, r);
    case Deploy(id, d) => DeployMovesVersions(s, id, d);
    case Handle(id, h) => HandleKeepsVersions(s, id, h);
    case Wake(id, w) => WakeKeepsVersions(s, id, w);
    case Guard(id, g) => GuardKeepsVersions(s, id, g);
    case System(y) => SystemKeepsVersions(s, y);
  }

  predicate SameVersions(row: Row, row': Row) { row'.current == row.current && row'.previous == row.previous }

  lemma HandleKeepsVersions(s: Sys, id: nat, h: FailureStep)
    requires Live(s, id) && MayHandle(s, s.tasks[id], h)
    ensures SameVersions(s.row, DoHandle(s, id, h).row)
  {
  }

  lemma WakeKeepsVersions(s: Sys, id: nat, w: WakeStep)
    requires Live(s, id) && MayWake(s, s.tasks[id], w)
    ensures SameVersions(s.row, DoWake(s, id, w).row)
  {
  }

  lemma GuardKeepsVersions(s: Sys, id: nat, g: GuardStep)
    requires Live(s, id) && MayGuard(s, s.tasks[id], g)
    ensures SameVersions(s.row, DoGuard(s, id, g).row)
  {
  }

  lemma SystemKeepsVersions(s: Sys, y: SystemStep)
    requires MayHappen(s, y)
    ensures SameVersions(s.row, DoSystem(s, y).row)
  {
  }

  lemma AskMovesVersions(s: Sys, r: Request)
    requires Versioned(s.row) && MayAsk(s, r)
    ensures Versioned(DoAsk(s, r).row) && VersionsMove(s, Ask(r), DoAsk(s, r))
  {
  }

  lemma DeployMovesVersions(s: Sys, id: nat, d: DeployStep)
    requires Basic(s) && Versioned(s.row) && Live(s, id) && MayDeploy(s, s.tasks[id], d)
    ensures Versioned(DoDeploy(s, id, d).row) && VersionsMove(s, Deploy(id, d), DoDeploy(s, id, d))
  {
    assert Knows(s.row, s.workload, s.tasks[id]);
  }

  /** In every run the version kept for a rollback is not the current one, and each further step treats the two as
      `VersionsMove` says. */
  lemma PreviousIsAnother(mode: Mode, es: seq<Event>, e: Event)
    requires IsRun(Initial(mode), es) && Unsplit(Initial(mode), es) && Enabled(After(Initial(mode), es), e)
    ensures Versioned(After(Initial(mode), es).row)
    ensures VersionsMove(After(Initial(mode), es), e, Do(After(Initial(mode), es), e))
  {
    assert OwnedBy(Initial(mode), None);
    RunKeepsVersioned(Initial(mode), es, None);
    var owner :| OwnedBy(After(Initial(mode), es), owner);
    StepMovesVersions(After(Initial(mode), es), e, owner);
  }

  lemma {:induction false} RunKeepsVersioned(s: Sys, es: seq<Event>, owner: Option<nat>)
    requires IsRun(s, es) && Unsplit(s, es) && OwnedBy(s, owner) && Basic(s) && Versioned(s.row)
    ensures Owned(After(s, es)) && Basic(After(s, es)) && Versioned(After(s, es).row)
    decreases es
  {
    if es != [] {
      StepKeepsOwned(s, es[0], owner);
      StepKeepsBasic(s, es[0], owner);
      StepMovesVersions(s, es[0], owner);
      RunKeepsVersioned(Do(s, es[0]), es[1..], NextOwner(s, Do(s, es[0]), owner));
    }
  }

  ghost predicate CurrentStays(s: Sys, es: seq<Event>, d: Digest)
    requires IsRun(s, es)
    decreases es
  {
    s.row.current == Some(d) && (es == [] || CurrentStays(Do(s, es[0]), es[1..], d))
  }

  /** Along the run a deploy of `d` makes its final record, and `d` stays current from then on. */
  ghost predicate Restores(s: Sys, es: seq<Event>, d: Digest)
    requires IsRun(s, es)
    decreases es
  {
    es != [] &&
    ((Records(s, es[0], d) && CurrentStays(Do(s, es[0]), es[1..], d)) || Restores(Do(s, es[0]), es[1..], d))
  }

  predicate IsRecord(e: Event) { e.Deploy? && e.d.Record? }

  lemma {:induction false} RestoringRecords(s: Sys, es: seq<Event>, d: Digest)
    requires IsRun(s, es) && Restores(s, es, d)
    ensures exists e :: e in es && IsRecord(e)
    decreases es
  {
    if Records(s, es[0], d) {
      assert es[0] in es && IsRecord(es[0]);
    } else {
      RestoringRecords(Do(s, es[0]), es[1..], d);
      var e :| e in es[1..] && IsRecord(e);
      assert e in es;
    }
  }

  lemma {:induction false} CurrentIff(s: Sys, es: seq<Event>, d: Digest, owner: Option<nat>)
    requires IsRun(s, es) && Unsplit(s, es) && OwnedBy(s, owner) && Basic(s) && Versioned(s.row)
    ensures After(s, es).row.current == Some(d) <==> CurrentStays(s, es, d) || Restores(s, es, d)
    decreases es
  {
    if es != [] {
      StepKeepsOwned(s, es[0], owner);
      StepKeepsBasic(s, es[0], owner);
      StepMovesVersions(s, es[0], owner);
      CurrentIff(Do(s, es[0]), es[1..], d, NextOwner(s, Do(s, es[0]), owner));
    }
  }

  /** A rollback request reads the row after `before` and claims the model after `since`. It deploys the version it
      read as the previous one, and that is another one than the current unless a deploy has made it current since; so
      it is another one if no deploy has made its final record since. */
  lemma RollbackGoesElsewhere(mode: Mode, before: seq<Event>, since: seq<Event>, copyApproved: bool)
    requires IsRun(Initial(mode), before) && IsRun(After(Initial(mode), before), since)
    requires Unsplit(Initial(mode), before) && Unsplit(After(Initial(mode), before), since)
    requires After(Initial(mode), before).row.previous.Some?
    requires var copy, s := After(Initial(mode), before), After(After(Initial(mode), before), since);
      var r := Rollback(copy.row.state, copyApproved, copy.row.previous);
      MayAsk(s, r) && DoAsk(s, r) != s
    ensures var copy, s := After(Initial(mode), before), After(After(Initial(mode), before), since);
      var s' := DoAsk(s, Rollback(copy.row.state, copyApproved, copy.row.previous));
      && s.next in s'.tasks && s'.tasks[s.next].Queued? && s'.tasks[s.next].digest == copy.row.previous.value
      && (s.row.current == copy.row.previous <==> Restores(copy, since, copy.row.previous.value))
      && ((forall e :: e in since ==> !IsRecord(e)) ==> s.row.current != copy.row.previous)
  {
    assert OwnedBy(Initial(mode), None);
    RunKeepsVersioned(Initial(mode), before, None);
    var copy := After(Initial(mode), before);
    var owner :| OwnedBy(copy, owner);
    CurrentIff(copy, since, copy.row.previous.value, owner);
    assert !CurrentStays(copy, since, copy.row.previous.value);
    if Restores(copy, since, copy.row.previous.value) { RestoringRecords(copy, since, copy.row.previous.value); }
  }

  // ----- what a removed model shows -----

  /** In every run, split or not: nothing but a removal, which clears them, leaves a removed row, and nothing is
      recorded in one. */
  lemma {:induction false} RemovedHoldsNothing(s: Sys, es: seq<Event>)
    requires IsRun(s, es) && Emptied(s.row)
    ensures Emptied(After(s, es).row)
    decreases es
  {
    if es != [] {
      StepKeepsEmptied(s, es[0]);
      RemovedHoldsNothing(Do(s, es[0]), es[1..]);
    }
  }

  predicate Emptied(row: Row) { row.state.Removed? ==> row.current.None? && row.previous.None? }

  lemma StepKeepsEmptied(s: Sys, e: Event)
    requires Enabled(s, e) && Emptied(s.row)
    ensures Emptied(Do(s, e).row)
  {
    match e
    case Handle(id, h) => HandleKeepsVersions(s, id, h);
    case Guard(id, g) => GuardKeepsVersions(s, id, g);
    case System(y) => SystemKeepsVersions(s, y);
    case _ =>
  }

  // ----- approval safety -----

  /** In every run, faults and all, whatever was handed to the backend, or runs as one version, carries resources
      that an approval of this model granted, and no grant exceeds the request it decided. */
  lemma OnlyApprovedRuns(mode: Mode, es: seq<Event>)
    requires IsRun(Initial(mode), es)
    ensures Approved(After(Initial(mode), es))
  {
    RunKeepsApproved(Initial(mode), es);
  }

  lemma {:induction false} RunKeepsApproved(s: Sys, es: seq<Event>)
    requires IsRun(s, es) && Approved(s)
    ensures Approved(After(s, es))
    decreases es
  {
    if es != [] {
      var e := es[0];
      match e {
        case Ask(r) => AskKeepsApproved(s, r);
        case Deploy(id, d) => DeployKeepsApproved(s, id, d);
        case Handle(id, h) => HandleKeepsApproved(s, id, h);
        case Wake(id, w) => WakeKeepsApproved(s, id, w);
        case Guard(id, g) => GuardKeepsApproved(s, id, g);
        case System(y) => SystemKeepsApproved(s, y);
      }
      RunKeepsApproved(Do(s, e), es[1..]);
    }
  }

  // ----- nothing is stranded -----

  /** How many more steps a task can take. */
  function Rank(p: Phase): nat {
    match p
    case Queued(_, _) => 9
    case Applying(_, _, _) => 8
    case Calling(_, _, _) => 7
    case Applied(_, _) => 6
    case Failing(_, _, _) => 5
    case RollingBack(_, _, _) => 4
    case RolledBack(_, _) => 3
    case Doomed(_, _) => 2
    case WakeQueued => 4
    case Waking => 3
    case Crashed(_) => 1
    case CleaningUp => 1
    case Tail => 1
    case CrashedLate => 0
  }

  /** The task has ended, or is nearer to its end than before; no other task has moved. */
  predicate Advanced(s: Sys, s': Sys, id: nat)
    requires id in s.tasks
  {
    && (id in s'.tasks ==> Rank(s'.tasks[id]) < Rank(s.tasks[id]))
    && s'.tasks - {id} == s.tasks - {id}
  }

  lemma DeployAdvances(s: Sys, id: nat, d: DeployStep)
    requires Live(s, id) && MayDeploy(s, s.tasks[id], d) && !d.GpuWait?
    ensures Advanced(s, DoDeploy(s, id, d), id)
  {
  }

  lemma HandleAdvances(s: Sys, id: nat, h: FailureStep)
    requires Live(s, id) && MayHandle(s, s.tasks[id], h)
    ensures Advanced(s, DoHandle(s, id, h), id)
  {
  }

  lemma WakeAdvances(s: Sys, id: nat, w: WakeStep)
    requires Live(s, id) && MayWake(s, s.tasks[id], w)
    ensures Advanced(s, DoWake(s, id, w), id)
  {
  }

  lemma GuardAdvances(s: Sys, id: nat, g: GuardStep)
    requires Live(s, id) && MayGuard(s, s.tasks[id], g)
    ensures Advanced(s, DoGuard(s, id, g), id)
  {
  }

  /** Every step of a task other than a GPU-wait report ends the task or brings it closer to its end. */
  lemma TasksEnd(s: Sys, id: nat, e: Event)
    requires Live(s, id) && Enabled(s, e)
    requires (e.Deploy? && !e.d.GpuWait?) || e.Handle? || e.Wake? || e.Guard?
    requires e.id == id
    ensures Advanced(s, Do(s, e), id)
  {
    match e {
      case Deploy(_, d) => DeployAdvances(s, id, d);
      case Handle(_, h) => HandleAdvances(s, id, h);
      case Wake(_, w) => WakeAdvances(s, id, w);
      case Guard(_, g) => GuardAdvances(s, id, g);
      case _ =>
    }
  }

  /** The step a task takes next when no fault hits it. */
  function NextStep(s: Sys, id: nat): Event
    requires id in s.tasks
  {
    match s.tasks[id]
    case Queued(_, _) => Deploy(id, Start)
    case Applying(_, _, _) => Deploy(id, ReadSpec)
    case Calling(_, _, _) => Deploy(id, ApplyOk)
    case Applied(_, _) => Deploy(id, Record(false))
    case Failing(_, _, _) => Handle(id, ReadRollback)
    case RollingBack(_, _, _) => Handle(id, RollbackOk)
    case RolledBack(_, _) => Handle(id, RecordRolledBack)
    case Doomed(_, _) => Handle(id, RecordFailed)
    case CleaningUp => Handle(id, CleanUp(Gone))
    case Tail => Handle(id, TailDone)
    case WakeQueued => Wake(id, WakeStart)
    case Waking => Wake(id, WakeDone)
    case Crashed(_) => Guard(id, Repair)
    case CrashedLate => Guard(id, Repair)
  }

  lemma OwnerMoves(s: Sys, owner: Option<nat>) returns (id: nat)
    requires OwnedBy(s, owner) && s.status.Running? && Busy(s.row.state)
    ensures id in s.tasks && Enabled(s, NextStep(s, id)) && !Splits(s, NextStep(s, id)) && FaultFree(NextStep(s, id))
    ensures owner.Some? && id == if s.lock.Some? then s.lock.value else owner.value
  {
    id := if s.lock.Some? then s.lock.value else owner.value;
    assert !s.row.state.Removed? && CanWrite(s) && Live(s, id);
    assert s.lock.None? ==> IsOwner(s.tasks[id]) && !HoldsLock(s.tasks[id]);
  }

  /** While the process runs, a busy model always has a task that can take its next step: either the holder of
      the model's lock, or, with the lock free, the owner. */
  lemma BusyModelsMove(mode: Mode, es: seq<Event>) returns (id: nat)
    requires IsRun(Initial(mode), es) && Unsplit(Initial(mode), es)
    requires After(Initial(mode), es).status.Running? && Busy(After(Initial(mode), es).row.state)
    ensures id in After(Initial(mode), es).tasks
    ensures Enabled(After(Initial(mode), es), NextStep(After(Initial(mode), es), id))
  {
    var owner := Reachable(mode, es);
    id := OwnerMoves(After(Initial(mode), es), owner);
  }

  /** A step of a task, and none of the faults. */
  predicate FaultFree(e: Event) {
    match e
    case Deploy(_, d) => d.Start? || d.ReadSpec? || d.ApplyOk? || d.Record?
    case Handle(_, h) =>
      h.ReadRollback? || h.RollbackOk? || h.RecordRolledBack? || h.RecordFailed? || h.CleanUp? || h.TailDone?
    case Wake(_, w) => !w.WakeFails?
    case Guard(_, g) => g.Repair?
    case _ => false
  }

  /** The steps the owner still needs, after those of another task that holds the lock. */
  ghost function Distance(s: Sys, owner: Option<nat>): nat
    requires OwnedBy(s, owner)
  {
    (if owner.Some? then Rank(s.tasks[owner.value]) else 0) + (if s.lock.Some? && s.lock != owner then 1 else 0)
  }

  lemma Near(s: Sys, owner: Option<nat>)
    requires OwnedBy(s, owner)
    ensures Distance(s, owner) <= 10
  {
  }

  /** A fault-free step of the task whose turn it is. */
  ghost predicate TurnTaken(s: Sys, s': Sys, id: nat, owner: Option<nat>) {
    && s'.status.Running? && s'.next == s.next && owner.Some? && id in s.tasks
    && (s'.lock == s.lock || s'.lock == Some(id) || s'.lock.None?)
    && (owner != Some(id) ==> id !in s'.tasks && s'.lock.None?)
  }

  lemma TakeTurn(s: Sys, id: nat, owner: Option<nat>)
    requires OwnedBy(s, owner) && s.status.Running? && owner.Some?
    requires id == if s.lock.Some? then s.lock.value else owner.value
    requires Enabled(s, NextStep(s, id)) && FaultFree(NextStep(s, id))
    ensures TurnTaken(s, Do(s, NextStep(s, id)), id, owner)
  {
  }

  lemma CloserToIdle(s: Sys, s': Sys, id: nat, owner: Option<nat>)
    requires OwnedBy(s, owner) && TurnTaken(s, s', id, owner)
    requires id == if s.lock.Some? then s.lock.value else owner.value
    requires OwnedBy(s', NextOwner(s, s', owner)) && Advanced(s, s', id)
    ensures Distance(s', NextOwner(s, s', owner)) < Distance(s, owner)
  {
    if owner != Some(id) { assert owner.value in s.tasks - {id}; }
  }

  lemma Cons(s: Sys, e: Event, rest: seq<Event>)
    requires Enabled(s, e) && IsRun(Do(s, e), rest)
    ensures IsRun(s, [e] + rest) && After(s, [e] + rest) == After(Do(s, e), rest)
  {
    assert ([e] + rest)[1..] == rest;
  }

  /** While the model is busy, some fault-free step brings its owner closer to its end. */
  lemma OneTurn(s: Sys, owner: Option<nat>) returns (id: nat, e: Event)
    requires OwnedBy(s, owner) && s.status.Running? && Busy(s.row.state)
    ensures owner.Some? && id == (if s.lock.Some? then s.lock.value else owner.value) && id in s.tasks
    ensures e == NextStep(s, id) && Enabled(s, e) && FaultFree(e) && !Splits(s, e)
    ensures TurnTaken(s, Do(s, e), id, owner) && OwnedBy(Do(s, e), NextOwner(s, Do(s, e), owner))
    ensures Distance(Do(s, e), NextOwner(s, Do(s, e), owner)) < Distance(s, owner)
  {
    id := OwnerMoves(s, owner);
    e := NextStep(s, id);
    StepKeepsOwned(s, e, owner);
    TasksEnd(s, id, e);
    TakeTurn(s, id, owner);
    CloserToIdle(s, Do(s, e), id, owner);
  }

  lemma {:induction false} Drains(s: Sys, owner: Option<nat>) returns (es: seq<Event>)
    requires OwnedBy(s, owner) && s.status.Running?
    ensures IsRun(s, es) && |es| <= Distance(s, owner) && forall e :: e in es ==> FaultFree(e)
    ensures After(s, es).status.Running? && !Busy(After(s, es).row.state)
    decreases Distance(s, owner)
  {
    es := [];
    if Busy(s.row.state) {
      var id, e := OneTurn(s, owner);
      var s' := Do(s, e);
      var rest := Drains(s', NextOwner(s, s', owner));
      es := [e] + rest;
      Cons(s, e, rest);
    }
  }

  /** From every state of every run with a single owner, ten fault-free steps of the tasks that exist are enough for
      a busy model to be idle again. */
  lemma BusyModelsDrain(mode: Mode, es: seq<Event>) returns (more: seq<Event>)
    requires IsRun(Initial(mode), es) && Unsplit(Initial(mode), es) && After(Initial(mode), es).status.Running?
    ensures IsRun(After(Initial(mode), es), more) && |more| <= 10 && forall e :: e in more ==> FaultFree(e)
    ensures After(After(Initial(mode), es), more).status.Running?
    ensures !Busy(After(After(Initial(mode), es), more).row.state)
  {
    var owner := Reachable(mode, es);
    Near(After(Initial(mode), es), owner);
    more := Drains(After(Initial(mode), es), owner);
  }

  /** When every task has ended, the model is not busy. */
  lemma NoneStranded(mode: Mode, es: seq<Event>)
    requires IsRun(Initial(mode), es) && Unsplit(Initial(mode), es)
    requires After(Initial(mode), es).tasks == map[] && After(Initial(mode), es).status.Running?
    ensures !Busy(After(Initial(mode), es).row.state)
  {
    BusyMeansOwned(mode, es);
  }

  function Recovered(s: Sys): Sys
    requires s.row.current.Some? ==> s.row.approved.Some?
  {
    if Busy(s.row.state) && s.row.current.Some? then
      s.(row := s.row.(state := Deploying),
        tasks := map[s.next := Queued(s.row.current.value, AfterRestart)], next := s.next + 1)
    else
      s.(row := s.row.(state := if Busy(s.row.state) then Failed else s.row.state), tasks := map[])
  }

  const RECOVERY: seq<Event> := [System(RecoverMark), System(RecoverBegin)]

  lemma RecoveryRuns(s: Sys)
    requires s.status.Down? && s.tasks == map[] && (s.row.current.Some? ==> s.row.approved.Some?)
    ensures IsRun(s, RECOVERY) && After(s, RECOVERY) == Recovered(s.(status := Running))
  {
    var s1 := DoSystem(s, RecoverMark);
    assert RECOVERY[1..] == [System(RecoverBegin)] && [System(RecoverBegin)][1..] == [];
    assert After(s1, [System(RecoverBegin)]) == DoSystem(s1, RecoverBegin);
  }

  /** After a crash at any point, recovery leaves the model idle, or deploying its recorded version again: the
      `begin` of a recovery never finds a conflict, because a recorded version implies approved resources. */
  lemma RecoveryStrandsNone(mode: Mode, es: seq<Event>)
    requires IsRun(Initial(mode), es) && Unsplit(Initial(mode), es) && After(Initial(mode), es).status.Down?
    ensures var s := After(Initial(mode), es);
      && (s.row.current.Some? ==> s.row.approved.Some?)
      && IsRun(s, RECOVERY) && After(s, RECOVERY) == Recovered(s.(status := Running))
  {
    var owner := Reachable(mode, es);
    RecoveryRuns(After(Initial(mode), es));
  }
}
