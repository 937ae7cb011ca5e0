/** What a model remembers of its failures, over every run of the workflow. */
module WorkflowHistory {
  import opened Options
  import opened Resources
  import opened States
  import opened Registry
  import opened Workflow
  import D = Deployer
  import T = DeployerTheorems
  import H = DeployerHistory

  /** A deploy of `d` records its failure. */
  predicate FailsAt(s: Sys, e: Event, d: Digest)
    requires Enabled(s, e)
  {
    e.Steps? && H.Fails(s.dep, e.e, d)
  }

  /** A redeploy that clears the failure wins its claim, the failure of another version takes its place, or the model is
      registered again by a submission that has read it as removed, with a failure. */
  ghost predicate Forgets(s: Sys, e: Event, d: Digest)
    requires Enabled(s, e)
  {
    match e
    case Redeploys(copy, copyApproved, _, clearFailed) =>
      clearFailed && D.MayBeginCopy(copy, copyApproved) && Startable(s.dep.row.state)
    case Steps(x) => exists d' :: d' != d && FailsAt(s, e, d')
    case Submitted(_, read, _) =>
      !OutcomeAt(s, e).Refused? && read.copy.row.state.Removed? && read.copy.row.failed.Some?
    case _ => false
  }

  lemma SubmissionKeepsFailed(s: Sys, e: Event, d: Digest)
    requires Enabled(s, e) && e.Submitted? && s.dep.row.failed == Some(d) && !Forgets(s, e, d)
    ensures Do(s, e).dep.row.failed == Some(d)
  {
    if !OutcomeAt(s, e).Refused? { assert Renewed(s, e).dep.row.failed == Some(d); }
  }

  lemma StepKeepsFailed(s: Sys, e: Event, d: Digest)
    requires Enabled(s, e) && s.dep.row.failed == Some(d) && !Forgets(s, e, d)
    ensures Do(s, e).dep.row.failed == Some(d)
  {
    match e
    case Submitted(_, _, _) => SubmissionKeepsFailed(s, e, d);
    case Steps(x) =>
      H.StepFails(s.dep, x);
      if d' :| H.Fails(s.dep, x, d') { assert FailsAt(s, e, d'); }
    case _ =>
  }

  ghost predicate Remembers(states: seq<Sys>, steps: seq<Event>, i: nat, j: nat, d: Digest)
    requires |states| == |steps| + 1 && i <= j <= |steps|
  {
    forall m :: i <= m < j ==> StillKnown(states, steps, m, d)
  }

  ghost predicate StillKnown(states: seq<Sys>, steps: seq<Event>, m: nat, d: Digest)
    requires |states| == |steps| + 1 && m < |steps|
  {
    Follows(states, steps, m) && !Forgets(states[m], steps[m], d)
  }

  lemma FailureStaysOnce(states: seq<Sys>, steps: seq<Event>, m: nat, d: Digest)
    requires |states| == |steps| + 1 && m < |steps| && StillKnown(states, steps, m, d)
    requires states[m].dep.row.failed == Some(d)
    ensures states[m + 1].dep.row.failed == Some(d)
  {
    StepKeepsFailed(states[m], steps[m], d);
  }

  lemma {:induction false} FailureStays(states: seq<Sys>, steps: seq<Event>, i: nat, j: nat, d: Digest)
    requires |states| == |steps| + 1 && i <= j <= |steps| && states[i].dep.row.failed == Some(d)
    requires Remembers(states, steps, i, j, d)
    ensures states[j].dep.row.failed == Some(d)
    decreases j - i
  {
    if i < j {
      FailureStays(states, steps, i, j - 1, d);
      FailureStaysOnce(states, steps, j - 1, d);
    }
  }

  /** Once a deploy of a version has recorded its failure, no submission that reads the row after that deploys the
      version or files a request for it, until an explicit redeploy, the failure of another version, or a removal with
      a re-registration. */
  lemma KnownBadStays(states: seq<Sys>, steps: seq<Event>, i: nat, j: nat, d: Digest)
    requires IsRun(states, steps) && i < |steps| && Follows(states, steps, i) && FailsAt(states[i], steps[i], d)
    requires j < |steps| && steps[j].Submitted? && steps[j].a.digest == d && i < steps[j].read.at <= j
    requires Remembers(states, steps, i + 1, steps[j].read.at, d)
    requires !states[steps[j].read.at].dep.row.state.Removed?
    ensures OutcomeAt(states[j], steps[j]).Noop? || OutcomeAt(states[j], steps[j]).Refused?
  {
    H.StepFails(states[i].dep, steps[i].e);
    FailureStays(states, steps, i + 1, steps[j].read.at, d);
    assert Follows(states, steps, j);
  }

  /** The same of what is current and of what waits, as the submission reads them. */
  lemma KnownIsNoop(states: seq<Sys>, steps: seq<Event>, j: nat)
    requires IsRun(states, steps) && j < |steps| && steps[j].Submitted? && steps[j].read.at <= j
    requires var row := states[steps[j].read.at].dep.row;
      && !row.state.Removed?
      && (row.current == Some(steps[j].a.digest) || row.pending == Some(steps[j].a.digest)
          || row.failed == Some(steps[j].a.digest))
    ensures OutcomeAt(states[j], steps[j]).Noop? || OutcomeAt(states[j], steps[j]).Refused?
  {
    assert Follows(states, steps, j);
  }

  // ----- which requests of an admin have an effect -----

  /** An approval takes effect if and only if it has read its request as pending, grants pointwise no more than that
      asked, and its claim wins; otherwise everything is rolled back. */
  lemma ApprovesIff(s: Sys, e: Event)
    requires Enabled(s, e) && e.Approves?
    ensures Do(s, e) != s <==>
      && e.was.Pending? && Within(Granted(s, e), s.requests[e.id].requested)
      && T.IsIdle(e.copy) && T.IsIdle(s.dep.row.state)
    ensures Do(s, e) != s ==>
      && Do(s, e).requests == s.requests[e.id := s.requests[e.id].(status := Approved)]
      && Do(s, e).dep.row.state.Deploying?
      && s.dep.next in Do(s, e).dep.tasks && Do(s, e).dep.tasks[s.dep.next].Queued?
      && Do(s, e).dep.tasks[s.dep.next].digest == s.requests[e.id].digest
  {
    if Grants(s, e) { assert Do(s, e).dep.next == s.dep.next + 1; }
  }

  /** A rejection that has read its request as pending is written, and takes the digest out of waiting if it read it
      there; any other changes nothing. */
  lemma RejectsIff(s: Sys, e: Event)
    requires Enabled(s, e) && e.Rejects?
    ensures !e.was.Pending? ==> Do(s, e) == s
    ensures e.was.Pending? ==>
      && Do(s, e).requests == s.requests[e.id := s.requests[e.id].(status := Rejected)]
      && Do(s, e).dep.row.pending ==
         (if e.copyPending == Some(s.requests[e.id].digest) then None else s.dep.row.pending)
      && Do(s, e).dep.row.state ==
         (if e.copy.PendingApproval? && !e.copyRan then Failed else s.dep.row.state)
      && Do(s, e).dep.tasks == s.dep.tasks && Do(s, e).dep.workload == s.dep.workload
  {
  }

  /** A redeploy is of the version that some row it may have read records as current, or, with none, as failed. */
  lemma RedeploysRecorded(states: seq<Sys>, steps: seq<Event>, i: nat) returns (j: nat)
    requires IsRun(states, steps) && i < |steps| && steps[i].Redeploys?
    ensures j <= i
    ensures var row := states[j].dep.row;
      row.current == Some(steps[i].digest) || (row.current.None? && row.failed == Some(steps[i].digest))
  {
    assert Follows(states, steps, i);
    j :| 0 <= j <= i && Offers(states[j].dep.row, steps[i].digest);
  }
}
