/** Runs of the deploy protocol in which the recorded version and the running one, or a model and its owner, come
    apart. */
module DeployerRuns {
  import opened Options
  import opened Resources
  import opened States
  import opened Deployer
  import opened DeployerInvariants
  import opened DeployerTheorems

  // ----- where the recorded and the running version come apart -----

  /** A run without splits and lapses. */
  ghost predicate Plain(s: Sys, es: seq<Event>) { IsRun(s, es) && Unsplit(s, es) && Careful(s, es) }

  predicate Good(s: Sys, e: Event) { Enabled(s, e) && !Splits(s, e) && LapseOf(s, e).None? }

  lemma {:induction false} Grow(s: Sys, es: seq<Event>, e: Event)
    requires Plain(s, es) && Good(After(s, es), e)
    ensures Plain(s, es + [e]) && After(s, es + [e]) == Do(After(s, es), e)
    decreases es
  {
    if es == [] {
      assert [e][1..] == [];
    } else {
      assert (es + [e])[1..] == es[1..] + [e];
      Grow(Do(s, es[0]), es[1..], e);
    }
  }

  lemma GrowThree(s: Sys, es: seq<Event>, a: Event, b: Event, c: Event) returns (es': seq<Event>)
    requires Plain(s, es) && Good(After(s, es), a) && Good(Do(After(s, es), a), b)
    requires Good(Do(Do(After(s, es), a), b), c)
    ensures Plain(s, es') && After(s, es') == Do(Do(Do(After(s, es), a), b), c)
  {
    Grow(s, es, a);
    Grow(s, es + [a], b);
    Grow(s, es + [a] + [b], c);
    es' := es + [a] + [b] + [c];
  }

  /** A model that is ready with version `d`. */
  ghost predicate IsReady(s: Sys, d: Digest, r: Resources) {
    && s.status.Running? && !s.sleeper && s.lock.None? && s.tasks == map[] && s.row.mode.Sync?
    && s.row.state.Ready? && s.row.current == Some(d) && s.row.approved == Some(r) && s.workload == Some(Workload(d, r))
  }

  /** A deploy of `d` by the only task there is, from its claim to its applied workload. */
  lemma ApplyRun(s: Sys, es: seq<Event>, id: nat) returns (es': seq<Event>)
    requires Plain(s, es)
    requires var s1 := After(s, es);
      && s1.status.Running? && !s1.sleeper && s1.lock.None? && s1.row.state.Deploying? && s1.row.approved.Some?
      && s1.tasks.Keys == {id} && s1.tasks[id].Queued?
    ensures Plain(s, es')
    ensures var s1 := After(s, es);
      var spec := Workload(s1.tasks[id].digest, s1.row.approved.value);
      After(s, es') ==
        s1.(tasks := map[id := Applied(s1.tasks[id].digest, s1.row.current)],
            lock := Some(id), workload := Some(spec), applied := s1.applied + [spec])
  {
    es' := GrowThree(s, es, Deploy(id, Start), Deploy(id, ReadSpec), Deploy(id, ApplyOk));
    assert After(s, es').tasks == map[id := Applied(After(s, es).tasks[id].digest, After(s, es).row.current)];
  }

  lemma ReadyRun(d: Digest, r: Resources) returns (es: seq<Event>)
    ensures Plain(Initial(Sync), es) && IsReady(After(Initial(Sync), es), d, r)
  {
    var s0 := Initial(Sync);
    var approve := Ask(Approve(PendingApproval, None, r, r, d));
    Grow(s0, [], approve);
    assert [] + [approve] == [approve];
    es := ApplyRun(s0, [approve], 0);
    Grow(s0, es, Deploy(0, Record(false)));
    es := es + [Deploy(0, Record(false))];
  }

  /** An upgrade of a ready model, just claimed. */
  lemma ClaimRun(d: Digest, d': Digest, r: Resources) returns (es: seq<Event>, id: nat)
    ensures Plain(Initial(Sync), es)
    ensures var s := After(Initial(Sync), es);
      && s.status.Running? && !s.sleeper && s.lock.None? && s.tasks == map[id := Queued(d', Sound)] && s.next == id + 1
      && s.row.mode.Sync? && s.row.state.Deploying? && s.row.current == Some(d) && s.row.approved == Some(r)
      && s.workload == Some(Workload(d, r))
  {
    es := ReadyRun(d, r);
    id := After(Initial(Sync), es).next;
    var begin := Ask(Begin(Ready, true, d', false));
    Grow(Initial(Sync), es, begin);
    es := es + [begin];
  }

  /** The upgrade, up to the new workload being applied. */
  lemma UpgradeRun(d: Digest, d': Digest, r: Resources) returns (es: seq<Event>, id: nat)
    ensures Plain(Initial(Sync), es)
    ensures var s := After(Initial(Sync), es);
      && s.status.Running? && !s.sleeper && s.lock == Some(id)
      && s.tasks == map[id := Applied(d', Some(d))] && s.next == id + 1
      && s.row.mode.Sync? && Busy(s.row.state) && s.row.current == Some(d) && s.row.approved == Some(r)
      && s.workload == Some(Workload(d', r))
  {
    es, id := ClaimRun(d, d', r);
    es := ApplyRun(Initial(Sync), es, id);
  }

  /** An upgrade that has failed, and so has its rollback. */
  lemma FailedRollbackRun(d: Digest, d': Digest, r: Resources) returns (es: seq<Event>, id: nat)
    ensures Plain(Initial(Sync), es)
    ensures var s := After(Initial(Sync), es);
      && s.status.Running? && !s.sleeper && s.lock == Some(id) && s.tasks == map[id := Doomed(d', AfterRollback)]
      && s.row.mode.Sync? && Busy(s.row.state) && s.row.current == Some(d) && s.row.approved == Some(r)
      && s.workload == Some(Workload(d', r))
  {
    es, id := UpgradeRun(d, d', r);
    var s := After(Initial(Sync), es);
    es := GrowThree(Initial(Sync), es,
      Deploy(id, Fail), Handle(id, ReadRollback), Handle(id, RollbackFails(Untouched)));
    assert After(Initial(Sync), es).tasks == map[id := Doomed(d', AfterRollback)];
  }

  /** A model that is failed with the new version running, the old one recorded, and nobody at work. */
  lemma FailedUpgradeRun(d: Digest, d': Digest, r: Resources) returns (es: seq<Event>)
    ensures Plain(Initial(Sync), es)
    ensures var s := After(Initial(Sync), es);
      && s.status.Running? && !s.sleeper && s.lock.None? && s.tasks == map[]
      && s.row.mode.Sync? && s.row.state.Failed? && s.row.current == Some(d) && s.row.approved == Some(r)
      && s.workload == Some(Workload(d', r))
  {
    var id;
    es, id := FailedRollbackRun(d, d', r);
    Grow(Initial(Sync), es, Handle(id, RecordFailed));
    es := es + [Handle(id, RecordFailed)];
    Grow(Initial(Sync), es, Handle(id, CleanUp(Untouched)));
    es := es + [Handle(id, CleanUp(Untouched))];
  }

  /** The state just before a repair on the given footing: `d` is recorded with the grant `r`, and `w` runs. */
  ghost predicate Cornered(s: Sys, id: nat, footing: Footing, d: Digest, r: Resources, w: Workload) {
    && s.status.Running? && !s.sleeper && s.lock.None? && s.tasks == map[id := Crashed(footing)]
    && s.row.mode.Sync? && Busy(s.row.state) && s.row.current == Some(d) && s.row.approved == Some(r)
    && s.workload == Some(w)
  }

  /** The grant that is recorded, and the workload that runs, after a lapse. */
  function GrantAfter(lapse: Lapse, r: Resources, r': Resources): Resources {
    if lapse == Repaired(AfterGrant) then r' else r
  }

  function RunsAfter(lapse: Lapse, d: Digest, d': Digest, r: Resources): Workload {
    if lapse == Repaired(AfterGrant) then Workload(d, r) else Workload(d', r)
  }

  /** The only task dies in its failure handling. */
  lemma DieInHandler(s: Sys, es: seq<Event>, id: nat, footing: Footing) returns (es': seq<Event>)
    requires Plain(s, es)
    requires var s1 := After(s, es);
      && s1.status.Running? && !s1.sleeper && s1.lock == Some(id) && s1.tasks.Keys == {id}
      && (s1.tasks[id].Failing? || s1.tasks[id].Doomed?) && s1.tasks[id].footing == footing
      && s1.row.mode.Sync? && Busy(s1.row.state) && s1.row.current.Some? && s1.row.approved.Some? && s1.workload.Some?
    ensures Plain(s, es')
    ensures var s1 := After(s, es);
      Cornered(After(s, es'), id, footing, s1.row.current.value, s1.row.approved.value, s1.workload.value)
  {
    Grow(s, es, Guard(id, HandlerCrash));
    es' := es + [Guard(id, HandlerCrash)];
    assert After(s, es').tasks == map[id := Crashed(footing)];
  }

  lemma CrashInHandler(d: Digest, d': Digest, r: Resources, footing: Footing) returns (es: seq<Event>, id: nat)
    requires d != d' && (footing.AfterApply? || footing.AfterFault? || footing.AfterRollback?)
    ensures Plain(Initial(Sync), es) && Cornered(After(Initial(Sync), es), id, footing, d, r, Workload(d', r))
  {
    if footing.AfterApply? {
      es, id := UpgradeRun(d, d', r);
      Grow(Initial(Sync), es, Deploy(id, Fail));
      es := es + [Deploy(id, Fail)];
    } else if footing.AfterFault? {
      es, id := ClaimRun(d, d', r);
      es := GrowThree(Initial(Sync), es, Deploy(id, Start), Deploy(id, ReadSpec), Deploy(id, ApplyFails(New)));
    } else {
      es, id := FailedRollbackRun(d, d', r);
    }
    es := DieInHandler(Initial(Sync), es, id, footing);
  }

  /** A claim of an idle model whose footing is not sound, and whose task dies before it starts. */
  lemma ClaimAndCrash(s: Sys, es: seq<Event>, claim: Event, id: nat, footing: Footing) returns (es': seq<Event>)
    requires Plain(s, es) && Good(After(s, es), claim) && id == After(s, es).next
    requires var s1 := Do(After(s, es), claim);
      && s1.status.Running? && !s1.sleeper && s1.lock.None? && s1.tasks.Keys == {id} && s1.tasks[id].Queued?
      && s1.tasks[id].footing == footing && s1.row.mode.Sync? && Busy(s1.row.state)
      && s1.row.current.Some? && s1.row.approved.Some? && s1.workload.Some?
    ensures Plain(s, es')
    ensures var s1 := Do(After(s, es), claim);
      Cornered(After(s, es'), id, footing, s1.row.current.value, s1.row.approved.value, s1.workload.value)
  {
    Grow(s, es, claim);
    es' := es + [claim];
    Grow(s, es', Guard(id, EarlyCrash));
    es' := es' + [Guard(id, EarlyCrash)];
    assert After(s, es').tasks == map[id := Crashed(footing)];
  }

  lemma CrashBeforeStart(d: Digest, d': Digest, r: Resources, r': Resources, footing: Footing)
    returns (es: seq<Event>, id: nat)
    requires r != r' && (footing.AfterFailure? || footing.AfterGrant? || footing.AfterRestart?)
    ensures Plain(Initial(Sync), es)
    ensures Cornered(After(Initial(Sync), es), id,
      footing, d, GrantAfter(Repaired(footing), r, r'), RunsAfter(Repaired(footing), d, d', r))
  {
    if footing.AfterFailure? {
      es := FailedUpgradeRun(d, d', r);
      id := After(Initial(Sync), es).next;
      es := ClaimAndCrash(Initial(Sync), es, Ask(Begin(Failed, true, d, true)), id, footing);
    } else if footing.AfterGrant? {
      es := ReadyRun(d, r);
      id := After(Initial(Sync), es).next;
      es := ClaimAndCrash(Initial(Sync), es, Ask(Approve(Ready, Some(r), r', r', d')), id, footing);
    } else {
      es, id := RestartRun(d, d', r);
      es := ClaimAndCrash(Initial(Sync), es, System(RecoverBegin), id, footing);
    }
  }

  /** A crash in the middle of an upgrade, and the first half of the recovery. */
  lemma RestartRun(d: Digest, d': Digest, r: Resources) returns (es: seq<Event>, id: nat)
    ensures Plain(Initial(Sync), es)
    ensures var s := After(Initial(Sync), es);
      && s.status == Marked(Some(d)) && s.tasks == map[] && s.lock.None? && !s.sleeper
      && s.next == id && s.row.mode.Sync?
      && s.row.state.Ready? && s.row.current == Some(d) && s.row.approved == Some(r)
      && s.workload == Some(Workload(d', r))
  {
    es, id := UpgradeRun(d, d', r);
    id := id + 1;
    Grow(Initial(Sync), es, System(Crash(Untouched)));
    es := es + [System(Crash(Untouched))];
    Grow(Initial(Sync), es, System(RecoverMark));
    es := es + [System(RecoverMark)];
  }

  /** A repair on a sound footing is not a lapse, nor is one of a model without a version. */
  lemma SoundRepairsAreNone(s: Sys, id: nat)
    requires Enabled(s, Guard(id, Repair)) && s.tasks[id].Crashed?
    ensures LapseOf(s, Guard(id, Repair)).None? <==> s.tasks[id].footing == Sound || s.row.current.None?
  {
  }

  /** Every kind of lapse does harm: some run without splits whose only lapse is its last step, of that kind, ends
      with a model that is ready, with nobody at work on it and a workload that is not what is recorded. So none
      can be struck off the condition of
      `SettledMeansRecorded`. */
  lemma EveryLapseDiverges(lapse: Lapse, d: Digest, d': Digest, r: Resources, r': Resources)
    returns (es: seq<Event>, e: Event)
    requires d != d' && r != r' && lapse != Repaired(Sound)
    ensures Plain(Initial(Sync), es) && Enabled(After(Initial(Sync), es), e) && !Splits(After(Initial(Sync), es), e)
    ensures LapseOf(After(Initial(Sync), es), e) == Some(lapse)
    ensures !SettledOk(Do(After(Initial(Sync), es), e))
    ensures var s := Do(After(Initial(Sync), es), e);
      && s.tasks == map[] && s.row.state.Ready? && s.row.current == Some(d)
      && s.row.approved == Some(GrantAfter(lapse, r, r')) && s.workload == Some(RunsAfter(lapse, d, d', r))
  {
    if lapse.RecoveryCut? {
      var id;
      es, id := RestartRun(d, d', r);
      e := System(Crash(Untouched));
    } else {
      var id;
      if lapse.footing.AfterApply? || lapse.footing.AfterFault? || lapse.footing.AfterRollback? {
        es, id := CrashInHandler(d, d', r, lapse.footing);
      } else {
        es, id := CrashBeforeStart(d, d', r, r', lapse.footing);
      }
      e := Guard(id, Repair);
    }
  }

  /** Two crashes, the second between the two commits of the recovery: the model is ready with the old version
      recorded and the new one running, and no task is left to put that right. */
  lemma InterruptedRecoveryDiverges(d: Digest, d': Digest, r: Resources) returns (es: seq<Event>, rest: seq<Event>)
    requires d != d'
    ensures Plain(Initial(Sync), es) && IsRun(After(Initial(Sync), es), rest)
    ensures var s := After(After(Initial(Sync), es), rest);
      && s.status.Running? && s.tasks == map[] && s.row.state.Ready? && s.row.current == Some(d)
      && s.workload == Some(Workload(d', r))
  {
    var id;
    es, id := RestartRun(d, d', r);
    rest := [System(Crash(Untouched)), System(RecoverMark), System(RecoverBegin)];
    AfterThree(After(Initial(Sync), es), rest[0], rest[1], rest[2]);
  }

  /** One crash is enough when the redeploy of the recovery dies before it starts. */
  lemma FailedRecoveryDiverges(d: Digest, d': Digest, r: Resources) returns (es: seq<Event>, id: nat)
    requires d != d'
    ensures Plain(Initial(Sync), es) && Enabled(After(Initial(Sync), es), Guard(id, Repair))
    ensures var s := Do(After(Initial(Sync), es), Guard(id, Repair));
      && s.status.Running? && s.tasks == map[] && s.row.state.Ready? && s.row.current == Some(d)
      && s.workload == Some(Workload(d', r))
  {
    es, id := RestartRun(d, d', r);
    Grow(Initial(Sync), es, System(RecoverBegin));
    es := es + [System(RecoverBegin)];
    Grow(Initial(Sync), es, Guard(id, EarlyCrash));
    es := es + [Guard(id, EarlyCrash)];
  }

  /** A stale rollback deploys what is current already: somebody else has rolled back in between. */
  lemma StaleRollbackStays(d: Digest, d': Digest, r: Resources) returns (before: seq<Event>, since: seq<Event>)
    requires d != d'
    ensures Plain(Initial(Sync), before) && Plain(After(Initial(Sync), before), since)
    ensures var copy, s := After(Initial(Sync), before), After(After(Initial(Sync), before), since);
      var rollback := Rollback(copy.row.state, true, copy.row.previous);
      && copy.row.current == Some(d') && copy.row.previous == Some(d) && s.row.current == Some(d)
      && MayAsk(s, rollback) && DoAsk(s, rollback) != s
  {
    var id;
    before, id := UpgradeRun(d, d', r);
    Grow(Initial(Sync), before, Deploy(id, Record(false)));
    before := before + [Deploy(id, Record(false))];
    var copy := After(Initial(Sync), before);
    var rollback := Ask(Rollback(Ready, true, Some(d)));
    Grow(copy, [], rollback);
    assert [] + [rollback] == [rollback];
    since := ApplyRun(copy, [rollback], copy.next);
    Grow(copy, since, Deploy(copy.next, Record(false)));
    since := since + [Deploy(copy.next, Record(false))];
    ClaimsWinIff(After(copy, since), rollback.r);
  }

  // ----- where ownership splits -----

  lemma FirstStartRun(d: Digest, r: Resources) returns (es: seq<Event>)
    ensures Plain(Initial(Sync), es)
    ensures After(Initial(Sync), es) == Initial(Sync).(
      row := Initial(Sync).row.(state := Deploying, approved := Some(r)),
      tasks := map[0 := Applying(d, None, AfterGrant)], next := 1, lock := Some(0), grants := [Grant(r, r)])
  {
    var approve := Ask(Approve(PendingApproval, None, r, r, d));
    Grow(Initial(Sync), [], approve);
    assert [] + [approve] == [approve];
    Grow(Initial(Sync), [approve], Deploy(0, Start));
    es := [approve] + [Deploy(0, Start)];
    assert After(Initial(Sync), es).tasks == map[0 := Applying(d, None, AfterGrant)];
  }

  /** A first deploy that failed: "failed" is recorded, the cleanup and the route write are still to come. */
  lemma FailedFirstRun(d: Digest, r: Resources) returns (es: seq<Event>)
    ensures Plain(Initial(Sync), es)
    ensures var s := After(Initial(Sync), es);
      && s.status.Running? && !s.sleeper && s.lock == Some(0) && s.tasks == map[0 := CleaningUp] && s.next == 1
      && s.row.state.Failed? && s.row.current.None? && s.row.approved.Some?
  {
    es := FirstStartRun(d, r);
    es := GrowThree(Initial(Sync), es, Deploy(0, Fail), Handle(0, ReadRollback), Handle(0, RecordFailed));
    assert After(Initial(Sync), es).tasks == map[0 := CleaningUp];
  }

  ghost predicate TwoOwners(s: Sys) {
    exists i, j :: i != j && i in s.tasks && j in s.tasks && IsOwner(s.tasks[i]) && IsOwner(s.tasks[j])
  }

  /** A route write that raises after the final record lets the guard reset another task's claim: two tasks own
      the model at once. */
  lemma LateFaultSplitsOwnership(d: Digest, r: Resources) returns (es: seq<Event>, more: seq<Event>)
    ensures Plain(Initial(Sync), es) && IsRun(After(Initial(Sync), es), more)
    ensures TwoOwners(After(After(Initial(Sync), es), more))
  {
    es := FailedFirstRun(d, r);
    var claim := Ask(Begin(Failed, true, d, false));
    Grow(Initial(Sync), es, claim);
    es := es + [claim];
    more := [Guard(0, TailCrash), Guard(0, Repair), claim];
    AfterThree(After(Initial(Sync), es), more[0], more[1], more[2]);
    var s := After(After(Initial(Sync), es), more);
    assert IsOwner(s.tasks[1]) && IsOwner(s.tasks[2]);
  }

  /** A rejection that was decided on the row as it was before the approval does the same. */
  lemma StaleRejectSplitsOwnership(d: Digest, r: Resources) returns (es: seq<Event>)
    ensures IsRun(Initial(Sync), es) && TwoOwners(After(Initial(Sync), es))
    ensures forall e :: e in es ==> e.Ask?
  {
    es := [Ask(Approve(PendingApproval, None, r, r, d)),
      Ask(Reject(PendingApproval, false)), Ask(Begin(Failed, true, d, false))];
    AfterThree(Initial(Sync), es[0], es[1], es[2]);
    var s := After(Initial(Sync), es);
    assert IsOwner(s.tasks[0]) && IsOwner(s.tasks[1]);
  }

  /** So does a re-registration of a removed model that read the row before another one of it was approved. */
  lemma StaleReregistrationSplits(d: Digest, r: Resources) returns (es: seq<Event>, more: seq<Event>, copy: Row)
    ensures IsRun(Initial(Sync), es) && copy == After(Initial(Sync), es).row && IsRun(After(Initial(Sync), es), more)
    ensures |more| == 3 && more[2] == Ask(Reregister(copy, Sync)) && forall e :: e in more ==> e.Ask?
    ensures var s := After(After(Initial(Sync), es), more);
      s.row.state.PendingApproval? && 0 in s.tasks && IsOwner(s.tasks[0]) && !SoleOwner(s)
  {
    es := [Ask(Remove)];
    assert es[1..] == [];
    var removed := Do(Initial(Sync), es[0]);
    assert After(removed, es[1..]) == removed;
    copy := removed.row;
    var again := Ask(Reregister(copy, Sync));
    more := [again, Ask(Approve(PendingApproval, None, r, r, d)), again];
    AfterThree(removed, more[0], more[1], more[2]);
  }

  /** A repair that cannot reach the database leaves a busy model to nobody. */
  lemma FailedRepairStrands(d: Digest, r: Resources) returns (es: seq<Event>)
    ensures IsRun(Initial(Sync), es)
    ensures After(Initial(Sync), es).tasks == map[] && Busy(After(Initial(Sync), es).row.state)
  {
    es := [Ask(Approve(PendingApproval, None, r, r, d)), Guard(0, EarlyCrash), Guard(0, RepairFails)];
    AfterThree(Initial(Sync), es[0], es[1], es[2]);
  }
}
