/** What the approval workflow guarantees about the workloads of a model, over every run, and what it does not. */
module WorkflowTheorems {
  import opened Options
  import opened Resources
  import opened States
  import opened Labels
  import opened Registry
  import opened Workflow
  import opened WorkflowRequests
  import D = Deployer
  import I = DeployerInvariants
  import T = DeployerTheorems

  // ----- every run of the workflow is a run of the deploy machine -----

  function Claim(e: Event): D.Event
    requires e.Submitted?
  {
    D.Ask(D.Begin(e.read.copy.row.state, true, e.a.digest, false))
  }

  /** What a submission writes to the row. */
  function Renewal(e: Event): seq<D.Event>
    requires e.Submitted?
  {
    if e.read.copy.row.state.Removed? then [D.Ask(D.Reregister(e.read.copy.row, e.a.mode))] else []
  }

  function Writes(s: Sys, e: Event): seq<D.Event>
    requires e.Submitted?
  {
    Renewal(e) +
    (if WantedPending(s, e) == e.read.copy.row.pending then [] else [D.Ask(D.SetPending(WantedPending(s, e)))])
  }

  /** The steps the deploy machine takes. */
  ghost function Projection(s: Sys, e: Event): seq<D.Event>
    requires Enabled(s, e)
  {
    match e
    case Submitted(_, _, _) =>
      if OutcomeAt(s, e).Refused? || RolledBack(s, e) || Refreshed(s, e) then []
      else Writes(s, e) + (if Automatic(s, e) then [Claim(e)] else [])
    case Approves(id, _, copy, copyGrant, _) =>
      if Grants(s, e) then
        [D.Ask(D.Approve(copy, copyGrant, s.requests[id].requested, Granted(s, e),
        s.requests[id].digest))]
      else []
    case Rejects(id, was, copy, copyRan, copyPending) =>
      if !was.Pending? then []
      else
        (if copyPending == Some(s.requests[id].digest) then [D.Ask(D.SetPending(None))] else [])
        + [D.Ask(D.Reject(copy, copyRan))]
    case Redeploys(copy, copyApproved, digest, clearFailed) => [D.Ask(D.Begin(copy, copyApproved, digest, clearFailed))]
    case RollsBack(copy, copyApproved, copyPrevious) => [D.Ask(D.Rollback(copy, copyApproved, copyPrevious))]
    case Steps(d) => [d]
    case Others(_) => []
  }

  lemma {:induction false} Concat(s: D.Sys, es: seq<D.Event>, more: seq<D.Event>)
    requires D.IsRun(s, es) && D.IsRun(D.After(s, es), more)
    ensures D.IsRun(s, es + more) && D.After(s, es + more) == D.After(D.After(s, es), more)
    ensures D.Unsplit(s, es + more) <==> D.Unsplit(s, es) && D.Unsplit(D.After(s, es), more)
    ensures D.Careful(s, es + more) <==> D.Careful(s, es) && D.Careful(D.After(s, es), more)
    decreases es
  {
    if es == [] {
      assert es + more == more;
    } else {
      assert (es + more)[1..] == es[1..] + more;
      Concat(D.Do(s, es[0]), es[1..], more);
    }
  }

  lemma One(s: D.Sys, e: D.Event)
    requires D.Enabled(s, e)
    ensures D.IsRun(s, [e]) && D.After(s, [e]) == D.Do(s, e)
  {
    assert [e][1..] == [];
  }

  lemma Then(s: D.Sys, es: seq<D.Event>, e: D.Event)
    requires D.IsRun(s, es) && D.Enabled(D.After(s, es), e)
    ensures D.IsRun(s, es + [e]) && D.After(s, es + [e]) == D.Do(D.After(s, es), e)
  {
    One(D.After(s, es), e);
    Concat(s, es, [e]);
  }

  lemma WritesProject(s: Sys, e: Event)
    requires Enabled(s, e) && e.Submitted?
    ensures D.IsRun(s.dep, Renewal(e)) && D.After(s.dep, Renewal(e)) == Renewed(s, e).dep
    ensures D.IsRun(s.dep, Writes(s, e)) && D.After(s.dep, Writes(s, e)) == Written(s, e).dep
    ensures D.CanWrite(Written(s, e).dep)
  {
    if e.read.copy.row.state.Removed? { One(s.dep, D.Ask(D.Reregister(e.read.copy.row, e.a.mode))); }
    if WantedPending(s, e) == e.read.copy.row.pending {
      assert Writes(s, e) == Renewal(e);
    } else {
      Then(s.dep, Renewal(e), D.Ask(D.SetPending(WantedPending(s, e))));
    }
  }

  lemma SubmissionProjects(s: Sys, e: Event)
    requires Enabled(s, e) && e.Submitted?
    ensures D.IsRun(s.dep, Projection(s, e)) && D.After(s.dep, Projection(s, e)) == Do(s, e).dep
  {
    WritesProject(s, e);
    if Automatic(s, e) {
      Then(s.dep, Writes(s, e), Claim(e));
    } else {
      assert Writes(s, e) + [] == Writes(s, e);
    }
  }

  lemma StepProjects(s: Sys, e: Event)
    requires Enabled(s, e)
    ensures D.IsRun(s.dep, Projection(s, e)) && D.After(s.dep, Projection(s, e)) == Do(s, e).dep
  {
    match e
    case Submitted(_, _, _) => SubmissionProjects(s, e);
    case Rejects(id, was, copy, copyRan, copyPending) =>
      if was.Pending? {
        if copyPending == Some(s.requests[id].digest) {
          One(s.dep, D.Ask(D.SetPending(None)));
          Then(s.dep, [D.Ask(D.SetPending(None))], D.Ask(D.Reject(copy, copyRan)));
        } else {
          One(s.dep, D.Ask(D.Reject(copy, copyRan)));
          assert [] + [D.Ask(D.Reject(copy, copyRan))] == [D.Ask(D.Reject(copy, copyRan))];
        }
      }
    case Approves(_, _, _, _, _) => if Grants(s, e) { One(s.dep, Projection(s, e)[0]); }
    case Others(_) =>
    case _ => One(s.dep, Projection(s, e)[0]);
  }

  /** The submission registers a model again that it has read as removed. */
  predicate Reregisters(s: Sys, e: Event) {
    e.Submitted? && !OutcomeAt(s, e).Refused? && e.read.copy.row.state.Removed?
  }

  /** The steps that split the ownership of the model: those of the machine, a rejection that takes the model for one
      that never ran while a claim made since is under way, and a re-registration that takes it for removed while such
      a claim is under way or has recorded a version. */
  predicate Overruns(s: Sys, e: Event)
    requires Enabled(s, e)
  {
    match e
    case Steps(d) => D.Splits(s.dep, d)
    case Rejects(_, was, copy, copyRan, _) => was.Pending? && copy.PendingApproval? && !copyRan && Busy(s.dep.row.state)
    case Submitted(_, _, _) => Reregisters(s, e) && (Busy(s.dep.row.state) || s.dep.row.current.Some?)
    case _ => false
  }

  lemma {:induction false} AsksDoNotSplit(s: D.Sys, es: seq<D.Event>)
    requires D.IsRun(s, es) && forall e :: e in es ==> e.Ask? && !e.r.Reject? && !e.r.Reregister?
    ensures D.Unsplit(s, es)
    decreases es
  {
    if es != [] { AsksDoNotSplit(D.Do(s, es[0]), es[1..]); }
  }

  lemma UnsplitSubmission(s: Sys, e: Event)
    requires Enabled(s, e) && !Overruns(s, e) && e.Submitted?
    ensures D.IsRun(s.dep, Projection(s, e)) && D.Unsplit(s.dep, Projection(s, e))
  {
    SubmissionProjects(s, e);
    if Reregisters(s, e) {
      assert !OutcomeAt(s, e).Deploy?;
      assert Projection(s, e) == Writes(s, e);
      var rest := Writes(s, e)[1..];
      assert Writes(s, e) == [Writes(s, e)[0]] + rest;
      AsksDoNotSplit(D.Do(s.dep, Writes(s, e)[0]), rest);
    } else {
      AsksDoNotSplit(s.dep, Projection(s, e));
    }
  }

  lemma UnsplitStep(s: Sys, e: Event)
    requires Enabled(s, e) && !Overruns(s, e)
    ensures D.IsRun(s.dep, Projection(s, e)) && D.Unsplit(s.dep, Projection(s, e))
  {
    StepProjects(s, e);
    match e
    case Steps(d) => assert [d][1..] == [];
    case Rejects(id, was, copy, copyRan, copyPending) =>
      if was.Pending? {
        var last := D.Ask(D.Reject(copy, copyRan));
        assert [last][1..] == [];
        if copyPending == Some(s.requests[id].digest) {
          assert ([D.Ask(D.SetPending(None))] + [last])[1..] == [last];
          assert Projection(s, e) == [D.Ask(D.SetPending(None))] + [last];
        } else {
          assert Projection(s, e) == [last];
        }
      }
    case Submitted(_, _, _) => UnsplitSubmission(s, e);
    case _ => AsksDoNotSplit(s.dep, Projection(s, e));
  }

  /** The step declares the model settled without knowing what runs. */
  predicate Lapses(s: Sys, e: Event)
    requires Enabled(s, e)
  {
    e.Steps? && D.LapseOf(s.dep, e.e).Some?
  }

  lemma {:induction false} AsksAreCareful(s: D.Sys, es: seq<D.Event>)
    requires D.IsRun(s, es) && forall e :: e in es ==> e.Ask?
    ensures D.Careful(s, es)
    decreases es
  {
    if es != [] { AsksAreCareful(D.Do(s, es[0]), es[1..]); }
  }

  lemma CarefulStep(s: Sys, e: Event)
    requires Enabled(s, e) && !Lapses(s, e)
    ensures D.IsRun(s.dep, Projection(s, e)) && D.Careful(s.dep, Projection(s, e))
  {
    StepProjects(s, e);
    match e
    case Steps(d) => assert [d][1..] == [];
    case _ => AsksAreCareful(s.dep, Projection(s, e));
  }

  ghost predicate NoOverrun(states: seq<Sys>, steps: seq<Event>, i: nat)
    requires IsRun(states, steps) && i <= |steps|
  {
    forall m :: 0 <= m < i ==> StaysWhole(states, steps, m)
  }

  ghost predicate StaysWhole(states: seq<Sys>, steps: seq<Event>, m: nat)
    requires |states| == |steps| + 1 && m < |steps|
  {
    Follows(states, steps, m) && !Overruns(states[m], steps[m])
  }

  ghost predicate NoLapse(states: seq<Sys>, steps: seq<Event>, i: nat)
    requires IsRun(states, steps) && i <= |steps|
  {
    forall m :: 0 <= m < i ==> StaysCareful(states, steps, m)
  }

  ghost predicate StaysCareful(states: seq<Sys>, steps: seq<Event>, m: nat)
    requires |states| == |steps| + 1 && m < |steps|
  {
    Follows(states, steps, m) && !Lapses(states[m], steps[m])
  }

  lemma ConcatStep(s: D.Sys, es: seq<D.Event>, w: Sys, e: Event)
    requires D.IsRun(s, es) && D.After(s, es) == w.dep && Enabled(w, e)
    ensures D.IsRun(s, es + Projection(w, e)) && D.After(s, es + Projection(w, e)) == Do(w, e).dep
    ensures D.Unsplit(s, es) && !Overruns(w, e) ==> D.Unsplit(s, es + Projection(w, e))
    ensures D.Careful(s, es) && !Lapses(w, e) ==> D.Careful(s, es + Projection(w, e))
  {
    StepProjects(w, e);
    Concat(s, es, Projection(w, e));
    if !Overruns(w, e) { UnsplitStep(w, e); }
    if !Lapses(w, e) { CarefulStep(w, e); }
  }

  lemma ProjectOnce(states: seq<Sys>, steps: seq<Event>, i: nat, before: seq<D.Event>) returns (es: seq<D.Event>)
    requires IsRun(states, steps) && i < |steps|
    requires D.IsRun(states[0].dep, before) && D.After(states[0].dep, before) == states[i].dep
    ensures D.IsRun(states[0].dep, es) && D.After(states[0].dep, es) == states[i + 1].dep
    ensures D.Unsplit(states[0].dep, before) && StaysWhole(states, steps, i) ==> D.Unsplit(states[0].dep, es)
    ensures D.Careful(states[0].dep, before) && StaysCareful(states, steps, i) ==> D.Careful(states[0].dep, es)
  {
    assert Follows(states, steps, i);
    ConcatStep(states[0].dep, before, states[i], steps[i]);
    es := before + Projection(states[i], steps[i]);
  }

  /** So everything proved of the deploy machine holds of the model in the workflow. */
  lemma {:induction false} RunProjects(states: seq<Sys>, steps: seq<Event>, i: nat) returns (es: seq<D.Event>)
    requires IsRun(states, steps) && i <= |steps|
    ensures D.IsRun(states[0].dep, es) && D.After(states[0].dep, es) == states[i].dep
    ensures NoOverrun(states, steps, i) ==> D.Unsplit(states[0].dep, es)
    ensures NoLapse(states, steps, i) ==> D.Careful(states[0].dep, es)
  {
    es := [];
    if i > 0 {
      var before := RunProjects(states, steps, i - 1);
      es := ProjectOnce(states, steps, i - 1, before);
      if NoOverrun(states, steps, i) { assert StaysWhole(states, steps, i - 1); }
      if NoLapse(states, steps, i) { assert StaysCareful(states, steps, i - 1); }
    }
  }

  /** In a run of the workflow without overruns and lapses, a ready or sleeping model whose workload exists runs
      exactly its recorded version with exactly its approved resources. */
  lemma SettledMeansRecorded(states: seq<Sys>, steps: seq<Event>, i: nat)
    requires IsRun(states, steps) && i <= |steps| && NoOverrun(states, steps, i) && NoLapse(states, steps, i)
    ensures var s := states[i].dep;
      s.status.Running? && Settled(s.row.state) && s.workload.Some? ==>
        && s.row.current.Some? && s.row.approved.Some?
        && s.workload.value == D.Workload(s.row.current.value, s.row.approved.value)
  {
    var es := RunProjects(states, steps, i);
    T.SettledMeansRecorded(states[0].dep.row.mode, es);
  }

  // ----- ownership -----

  lemma {:induction false} EventsKeepOwned(s: D.Sys, es: seq<D.Event>, owner: Option<nat>)
    requires D.IsRun(s, es) && D.Unsplit(s, es) && I.OwnedBy(s, owner)
    ensures I.Owned(D.After(s, es))
    decreases es
  {
    if es != [] {
      I.StepKeepsOwned(s, es[0], owner);
      EventsKeepOwned(D.Do(s, es[0]), es[1..], I.NextOwner(s, D.Do(s, es[0]), owner));
    }
  }

  lemma OverrunBreaks(s: Sys, e: Event, owner: Option<nat>)
    requires Enabled(s, e) && Overruns(s, e) && I.OwnedBy(s.dep, owner)
    ensures !I.Whole(Do(s, e).dep)
  {
    match e
    case Steps(d) => I.SplitBreaks(s.dep, d, owner);
    case Rejects(id, _, copy, copyRan, copyPending) =>
      var s1 := if copyPending == Some(s.requests[id].digest) then Ask(s, D.SetPending(None)) else s;
      I.SplitBreaks(s1.dep, D.Ask(D.Reject(copy, copyRan)), owner);
    case Submitted(_, _, _) => StaleRenewalBreaks(s, e, owner);
  }

  lemma RenewalIsWritten(s: Sys, e: Event)
    requires Enabled(s, e) && Reregisters(s, e)
    ensures Renewed(s, e).dep == D.DoAsk(s.dep, Renewal(e)[0].r)
    ensures var s1, s' := Renewed(s, e).dep, Do(s, e).dep;
      s'.status == s1.status && s'.tasks == s1.tasks && s'.row.state == s1.row.state && s'.row.current == s1.row.current
  {
    assert !OutcomeAt(s, e).Deploy?;
    assert Do(s, e).dep == Written(s, e).dep;
  }

  lemma StaleRenewalBreaks(s: Sys, e: Event, owner: Option<nat>)
    requires Enabled(s, e) && e.Submitted? && Overruns(s, e) && I.OwnedBy(s.dep, owner)
    ensures !I.Whole(Do(s, e).dep)
  {
    I.SplitBreaks(s.dep, Renewal(e)[0], owner);
    RenewalIsWritten(s, e);
    StillBroken(Renewed(s, e).dep, Do(s, e).dep);
  }

  lemma StillBroken(s: D.Sys, s': D.Sys)
    requires s'.status == s.status && s'.tasks == s.tasks && s'.row.state == s.row.state
    requires s'.row.current == s.row.current
    requires !I.Whole(s)
    ensures !I.Whole(s')
  {
    if I.Whole(s') { assert I.SoleOwner(s) && I.Blank(s.row); }
  }

  lemma StepKeepsOwned(s: Sys, e: Event)
    requires Enabled(s, e) && !Overruns(s, e) && I.Owned(s.dep)
    ensures I.Owned(Do(s, e).dep)
  {
    var owner :| I.OwnedBy(s.dep, owner);
    StepProjects(s, e);
    UnsplitStep(s, e);
    EventsKeepOwned(s.dep, Projection(s, e), owner);
  }

  lemma OwnedOnce(states: seq<Sys>, steps: seq<Event>, m: nat)
    requires |states| == |steps| + 1 && m < |steps| && StaysWhole(states, steps, m) && I.Owned(states[m].dep)
    ensures I.Owned(states[m + 1].dep)
  {
    StepKeepsOwned(states[m], steps[m]);
  }

  lemma {:induction false} OwnedAlong(states: seq<Sys>, steps: seq<Event>, i: nat)
    requires IsRun(states, steps) && i <= |steps|
    requires NoOverrun(states, steps, i)
    ensures I.Owned(states[i].dep)
  {
    if i == 0 {
      assert I.OwnedBy(states[0].dep, None);
    } else {
      OwnedAlong(states, steps, i - 1);
      OwnedOnce(states, steps, i - 1);
    }
  }

  lemma LastDidNotOverrun(states: seq<Sys>, steps: seq<Event>, n: nat)
    requires IsRun(states, steps) && 0 < n <= |steps| && NoOverrun(states, steps, n - 1) && I.Whole(states[n].dep)
    ensures StaysWhole(states, steps, n - 1)
  {
    assert Follows(states, steps, n - 1);
    OwnedAlong(states, steps, n - 1);
    var owner :| I.OwnedBy(states[n - 1].dep, owner);
    if Overruns(states[n - 1], steps[n - 1]) { OverrunBreaks(states[n - 1], steps[n - 1], owner); }
  }

  ghost predicate WholeAt(states: seq<Sys>, i: nat)
    requires i < |states|
  {
    I.Whole(states[i].dep)
  }

  /** The steps that do not overrun. */
  ghost function FineSteps(states: seq<Sys>, steps: seq<Event>): set<nat>
    requires |states| == |steps| + 1
  {
    set m: nat | m < |steps| && StaysWhole(states, steps, m)
  }

  lemma NextIsFine(states: seq<Sys>, steps: seq<Event>, k: nat)
    requires IsRun(states, steps) && k < |steps| && WholeAt(states, k + 1)
    requires forall m :: 0 <= m < k ==> m in FineSteps(states, steps)
    ensures k in FineSteps(states, steps)
  {
    FineMeans(states, steps, k);
    LastDidNotOverrun(states, steps, k + 1);
  }

  lemma FineMeans(states: seq<Sys>, steps: seq<Event>, n: nat)
    requires IsRun(states, steps) && n <= |steps| && forall m :: 0 <= m < n ==> m in FineSteps(states, steps)
    ensures NoOverrun(states, steps, n)
  {
    forall m | 0 <= m < n ensures StaysWhole(states, steps, m) { assert m in FineSteps(states, steps); }
  }

  lemma {:induction false} FirstToLast(fine: set<nat>, n: nat)
    requires forall k: nat :: k < n && (forall m :: 0 <= m < k ==> m in fine) ==> k in fine
    ensures forall k :: 0 <= k < n ==> k in fine
  {
    if n > 0 { FirstToLast(fine, n - 1); }
  }

  /** All along a run of the workflow a running model is busy exactly while one task owns it, and one that waits for its
      first approval or is removed has no version recorded, if and only if no step overruns. Other stale copies, of
      submissions, approvals, redeploys, rollbacks, wakes and sleeps, do no harm here. */
  lemma OwnershipIff(states: seq<Sys>, steps: seq<Event>)
    requires IsRun(states, steps)
    ensures (forall i :: 0 <= i <= |steps| ==> WholeAt(states, i))
            <==> NoOverrun(states, steps, |steps|)
  {
    if NoOverrun(states, steps, |steps|) {
      forall i | 0 <= i <= |steps| ensures WholeAt(states, i) {
        OwnedAlong(states, steps, i);
        var owner :| I.OwnedBy(states[i].dep, owner);
        I.OwnedIsWhole(states[i].dep, owner);
      }
    }
    if forall i :: 0 <= i <= |steps| ==> WholeAt(states, i) {
      forall k: nat | k < |steps| && (forall m :: 0 <= m < k ==> m in FineSteps(states, steps))
        ensures k in FineSteps(states, steps)
      {
        assert WholeAt(states, k + 1);
        NextIsFine(states, steps, k);
      }
      FirstToLast(FineSteps(states, steps), |steps|);
      FineMeans(states, steps, |steps|);
    }
  }

  // ----- approval safety -----

  /** Every grant of the deploy machine is a decision of an admin. */
  lemma {:induction false} GrantWasDecided(states: seq<Sys>, steps: seq<Event>, i: nat, k: nat) returns (g: nat)
    requires IsRun(states, steps) && i <= |steps| && k < |states[i].dep.grants|
    ensures g < i && Grants(states[g], steps[g]) && Granted(states[g], steps[g]) == states[i].dep.grants[k].granted
  {
    assert Follows(states, steps, i - 1);
    if k < |states[i - 1].dep.grants| {
      StepExtendsGrants(states[i - 1], steps[i - 1]);
      g := GrantWasDecided(states, steps, i - 1, k);
    } else {
      StepExtendsGrants(states[i - 1], steps[i - 1]);
      g := i - 1;
    }
  }

  lemma MachineKeepsGrants(s: D.Sys, e: D.Event)
    requires D.Enabled(s, e) && !(e.Ask? && e.r.Approve?)
    ensures D.Do(s, e).grants == s.grants
  {
  }

  lemma SubmissionKeepsGrants(s: Sys, e: Event)
    requires Enabled(s, e) && e.Submitted?
    ensures Do(s, e).dep.grants == s.dep.grants
  {
    WritesProject(s, e);
    assert Renewed(s, e).dep.grants == s.dep.grants;
    assert Written(s, e).dep.grants == s.dep.grants;
    if Automatic(s, e) { MachineKeepsGrants(Written(s, e).dep, Claim(e)); }
  }

  lemma StepExtendsGrants(s: Sys, e: Event)
    requires Enabled(s, e)
    ensures Do(s, e).dep.grants == s.dep.grants ||
      (Grants(s, e) && Do(s, e).dep.grants == s.dep.grants + [D.Grant(s.requests[e.id].requested, Granted(s, e))])
  {
    if e.Steps? {
      MachineKeepsGrants(s.dep, e.e);
    } else if e.Submitted? {
      SubmissionKeepsGrants(s, e);
    }
  }

  /** The decision at step `g` granted `r`: a request of this model that a submission had filed, on which an admin
      granted, pointwise, no more than it asked. */
  ghost predicate DecidedAt(states: seq<Sys>, steps: seq<Event>, g: nat, r: Resources)
    requires |states| == |steps| + 1 && g < |steps|
  {
    && Grants(states[g], steps[g]) && Granted(states[g], steps[g]) == r
    && Within(r, states[g].requests[steps[g].id].requested)
    && exists j :: 0 <= j < g && FiledAt(states, steps, j, states[g].requests[steps[g].id], steps[g].id)
  }

  ghost predicate FiledAt(states: seq<Sys>, steps: seq<Event>, j: nat, r: Request, id: nat)
    requires |states| == |steps| + 1 && j < |steps|
  {
    && Files(states[j], steps[j]) && id == |states[j].requests|
    && r.digest == steps[j].a.digest && r.requested == steps[j].a.resources
  }

  lemma DecisionsAreOfFiled(states: seq<Sys>, steps: seq<Event>, g: nat)
    requires IsRun(states, steps) && g < |steps| && Grants(states[g], steps[g])
    ensures DecidedAt(states, steps, g, Granted(states[g], steps[g]))
  {
    var j := RequestWasFiled(states, steps, g, steps[g].id);
    assert FiledAt(states, steps, j, states[g].requests[steps[g].id], steps[g].id);
  }

  lemma GrantedResources(states: seq<Sys>, steps: seq<Event>, i: nat, r: Resources) returns (g: nat)
    requires IsRun(states, steps) && i <= |steps| && I.WasGranted(states[i].dep.grants, r)
    ensures g < i && DecidedAt(states, steps, g, r)
  {
    var k :| 0 <= k < |states[i].dep.grants| && states[i].dep.grants[k].granted == r;
    g := GrantWasDecided(states, steps, i, k);
    DecisionsAreOfFiled(states, steps, g);
  }

  lemma ApprovedAlong(states: seq<Sys>, steps: seq<Event>, i: nat)
    requires IsRun(states, steps) && i <= |steps|
    ensures I.Approved(states[i].dep)
  {
    var es := RunProjects(states, steps, i);
    T.OnlyApprovedRuns(states[0].dep.row.mode, es);
  }

  /** Whatever is handed to the backend, in any run, carries resources that a decision granted. */
  lemma OnlyGrantedResources(states: seq<Sys>, steps: seq<Event>, i: nat, k: nat) returns (g: nat)
    requires IsRun(states, steps) && i <= |steps| && k < |states[i].dep.applied|
    ensures states[i].dep.applied[k].Workload? && g < i
    ensures DecidedAt(states, steps, g, states[i].dep.applied[k].resources)
  {
    ApprovedAlong(states, steps, i);
    assert I.GrantedSpec(states[i].dep.grants, states[i].dep.applied[k]);
    g := GrantedResources(states, steps, i, states[i].dep.applied[k].resources);
  }

  /** A submission that deploys without a human asks, pointwise, for no more than the grant that the row it has read
      shows, and that grant was decided before. */
  lemma AutomaticNeedsGrant(states: seq<Sys>, steps: seq<Event>, i: nat) returns (g: nat)
    requires IsRun(states, steps) && i < |steps| && Automatic(states[i], steps[i]) && steps[i].read.at <= i
    ensures var grant := states[steps[i].read.at].dep.row.approved;
      grant.Some? && Within(steps[i].a.resources, grant.value)
      && g < steps[i].read.at && DecidedAt(states, steps, g, grant.value)
  {
    assert Follows(states, steps, i);
    AutoDeployIff(View(states[i].name, steps[i].read.copy), steps[i].read.rejected, steps[i].a);
    ApprovedAlong(states, steps, steps[i].read.at);
    g := GrantedResources(states, steps, steps[i].read.at, states[steps[i].read.at].dep.row.approved.value);
  }

  // ----- which versions can run -----

  /** The digest that a step lets in: one an admin approves, or one that a submission may deploy without a human. */
  ghost function Admission(s: Sys, e: Event): set<Digest> {
    if Automatic(s, e) then {e.a.digest} else if Grants(s, e) then {s.requests[e.id].digest} else {}
  }

  ghost function Admitted(states: seq<Sys>, steps: seq<Event>, i: nat): set<Digest>
    requires |states| == |steps| + 1 && i <= |steps|
  {
    if i == 0 then {} else Admitted(states, steps, i - 1) + Admission(states[i - 1], steps[i - 1])
  }

  lemma {:induction false} AdmittedAt(states: seq<Sys>, steps: seq<Event>, i: nat, d: Digest) returns (j: nat)
    requires |states| == |steps| + 1 && i <= |steps| && d in Admitted(states, steps, i)
    ensures j < i && d in Admission(states[j], steps[j])
  {
    if d in Admission(states[i - 1], steps[i - 1]) {
      j := i - 1;
    } else {
      j := AdmittedAt(states, steps, i - 1, d);
    }
  }

  lemma {:induction false} AdmittedGrows(states: seq<Sys>, steps: seq<Event>, j: nat, i: nat)
    requires |states| == |steps| + 1 && j <= i <= |steps|
    ensures Admitted(states, steps, j) <= Admitted(states, steps, i)
    decreases i - j
  {
    if j < i {
      AdmittedGrows(states, steps, j, i - 1);
      var last := Admission(states[i - 1], steps[i - 1]);
      assert Admitted(states, steps, i) == Admitted(states, steps, i - 1) + last;
    }
  }

  predicate In(d: Option<Digest>, ok: set<Digest>) { d.Some? ==> d.value in ok }

  predicate SpecIn(w: D.Workload, ok: set<Digest>) { w.Workload? ==> w.digest in ok }

  predicate PhaseIn(p: D.Phase, ok: set<Digest>) {
    match p
    case Queued(d, _) => d in ok
    case Applying(d, prior, _) => d in ok && In(prior, ok)
    case Calling(d, prior, spec) => d in ok && In(prior, ok) && SpecIn(spec, ok)
    case Applied(d, prior) => d in ok && In(prior, ok)
    case Failing(d, prior, _) => d in ok && In(prior, ok)
    case RollingBack(d, back, spec) => d in ok && back in ok && SpecIn(spec, ok)
    case RolledBack(d, back) => d in ok && back in ok
    case Doomed(d, _) => d in ok
    case _ => true
  }

  /** Every digest the deploy machine may yet deploy, and every one it has handed to the backend, is in `ok`. */
  ghost predicate Carries(s: D.Sys, ok: set<Digest>) {
    && In(s.row.current, ok) && In(s.row.previous, ok) && In(s.row.failed, ok)
    && (forall id :: id in s.tasks ==> PhaseIn(s.tasks[id], ok))
    && (s.status.Marked? ==> In(s.status.redeploy, ok))
    && (forall i :: 0 <= i < |s.applied| ==> SpecIn(s.applied[i], ok))
  }

  /** The digest an event brings with it. */
  predicate Brings(e: D.Event, ok: set<Digest>) {
    match e
    case Ask(Begin(_, _, d, _)) => d in ok
    case Ask(Rollback(_, _, previous)) => In(previous, ok)
    case Ask(Approve(_, _, _, _, d)) => d in ok
    case _ => true
  }

  lemma AskCarries(s: D.Sys, r: D.Request, ok: set<Digest>)
    requires D.MayAsk(s, r) && Carries(s, ok) && Brings(D.Ask(r), ok)
    ensures Carries(D.DoAsk(s, r), ok)
  {
  }

  lemma DeployCarries(s: D.Sys, id: nat, d: D.DeployStep, ok: set<Digest>)
    requires D.Live(s, id) && D.MayDeploy(s, s.tasks[id], d) && Carries(s, ok)
    ensures Carries(D.DoDeploy(s, id, d), ok)
  {
  }

  lemma HandleCarries(s: D.Sys, id: nat, h: D.FailureStep, ok: set<Digest>)
    requires D.Live(s, id) && D.MayHandle(s, s.tasks[id], h) && Carries(s, ok)
    ensures Carries(D.DoHandle(s, id, h), ok)
  {
  }

  lemma WakeCarries(s: D.Sys, id: nat, w: D.WakeStep, ok: set<Digest>)
    requires D.Live(s, id) && D.MayWake(s, s.tasks[id], w) && Carries(s, ok)
    ensures Carries(D.DoWake(s, id, w), ok)
  {
  }

  lemma GuardCarries(s: D.Sys, id: nat, g: D.GuardStep, ok: set<Digest>)
    requires D.Live(s, id) && D.MayGuard(s, s.tasks[id], g) && Carries(s, ok)
    ensures Carries(D.DoGuard(s, id, g), ok)
  {
  }

  lemma SystemCarries(s: D.Sys, y: D.SystemStep, ok: set<Digest>)
    requires D.MayHappen(s, y) && Carries(s, ok)
    ensures Carries(D.DoSystem(s, y), ok)
  {
  }

  lemma EventCarries(s: D.Sys, e: D.Event, ok: set<Digest>)
    requires D.Enabled(s, e) && Carries(s, ok) && Brings(e, ok)
    ensures Carries(D.Do(s, e), ok)
  {
    match e
    case Ask(r) => AskCarries(s, r, ok);
    case Deploy(id, d) => DeployCarries(s, id, d, ok);
    case Handle(id, h) => HandleCarries(s, id, h, ok);
    case Wake(id, w) => WakeCarries(s, id, w, ok);
    case Guard(id, g) => GuardCarries(s, id, g, ok);
    case System(y) => SystemCarries(s, y, ok);
  }

  lemma {:induction false} EventsCarry(s: D.Sys, es: seq<D.Event>, ok: set<Digest>)
    requires D.IsRun(s, es) && Carries(s, ok) && forall e :: e in es ==> Brings(e, ok)
    ensures Carries(D.After(s, es), ok)
    decreases es
  {
    if es != [] {
      EventCarries(s, es[0], ok);
      EventsCarry(D.Do(s, es[0]), es[1..], ok);
    }
  }

  lemma CarriesMore(s: D.Sys, ok: set<Digest>, more: set<Digest>)
    requires Carries(s, ok) && ok <= more
    ensures Carries(s, more)
  {
  }

  lemma BringsAdmitted(s: Sys, e: Event, ok: set<Digest>)
    requires Enabled(s, e) && Admission(s, e) <= ok
    requires (e.Redeploys? ==> e.digest in ok) && (e.RollsBack? ==> In(e.copyPrevious, ok))
    ensures forall d :: d in Projection(s, e) ==> Brings(d, ok)
  {
  }

  /** What a stale copy offers to a redeploy or a rollback has been admitted too. */
  lemma {:induction false} CarriedAlong(states: seq<Sys>, steps: seq<Event>, i: nat)
    requires IsRun(states, steps) && i <= |steps|
    ensures Carries(states[i].dep, Admitted(states, steps, i))
  {
    if i > 0 {
      var s, e, ok := states[i - 1], steps[i - 1], Admitted(states, steps, i);
      assert Follows(states, steps, i - 1);
      CarriedAlong(states, steps, i - 1);
      CarriesMore(s.dep, Admitted(states, steps, i - 1), ok);
      if (e.Redeploys? || e.RollsBack?) {
        var j :| 0 <= j <= i - 1 && (e.Redeploys? ==> Offers(states[j].dep.row, e.digest))
          && (e.RollsBack? ==> states[j].dep.row.previous == e.copyPrevious);
        CarriedAlong(states, steps, j);
        AdmittedGrows(states, steps, j, i);
      }
      BringsAdmitted(s, e, ok);
      StepProjects(s, e);
      EventsCarry(s.dep, Projection(s, e), ok);
    }
  }

  /** In every run, faults, stale copies and late decisions included, every version that is ever handed to the backend
      was approved by an admin or deployed by a submission within the grant it had read. */
  lemma OnlyAdmittedVersions(states: seq<Sys>, steps: seq<Event>, i: nat, k: nat) returns (j: nat)
    requires IsRun(states, steps) && i <= |steps| && k < |states[i].dep.applied|
    ensures states[i].dep.applied[k].Workload?
    ensures j < i && states[i].dep.applied[k].digest in Admission(states[j], steps[j])
  {
    ApprovedAlong(states, steps, i);
    assert I.GrantedSpec(states[i].dep.grants, states[i].dep.applied[k]);
    CarriedAlong(states, steps, i);
    j := AdmittedAt(states, steps, i, states[i].dep.applied[k].digest);
  }
}
