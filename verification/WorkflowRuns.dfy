/** Runs of the workflow in which a status, or a row, is written over what another handler has written since it was
    read. */
module WorkflowRuns {
  import opened Options
  import opened Resources
  import opened States
  import opened Labels
  import opened Registry
  import opened Workflow
  import opened WorkflowRequests
  import D = Deployer
  import I = DeployerInvariants

  // ----- late writes -----

  lemma Grow(states: seq<Sys>, steps: seq<Event>, e: Event) returns (states': seq<Sys>, steps': seq<Event>)
    requires IsRun(states, steps) && Enabled(states[|steps|], e) && WasRead(states, |steps|, e)
    ensures states' == states + [Do(states[|steps|], e)] && steps' == steps + [e] && IsRun(states', steps')
  {
    states' := states + [Do(states[|steps|], e)];
    steps' := steps + [e];
    forall i | 0 <= i < |steps'| ensures Follows(states', steps', i) {
      if i < |steps| {
        assert Follows(states, steps, i);
        SameRead(states, states', i, steps[i]);
      } else {
        SameRead(states, states', i, e);
      }
    }
  }

  lemma SameRead(states: seq<Sys>, states': seq<Sys>, i: nat, e: Event)
    requires i < |states| < |states'| && states'[..|states|] == states && WasRead(states, i, e)
    ensures WasRead(states', i, e)
  {
    assert forall j :: 0 <= j <= i ==> states'[j] == states'[..|states|][j];
    match e
    case Redeploys(copy, _, digest, _) =>
      var j :| 0 <= j <= i && Offers(states[j].dep.row, digest);
      assert Offers(states'[j].dep.row, digest);
      var k :| 0 <= k <= i && states[k].dep.row.state == copy;
      assert states'[k].dep.row.state == copy;
    case RollsBack(copy, _, copyPrevious) =>
      var j :| 0 <= j <= i && states[j].dep.row.state == copy && states[j].dep.row.previous == copyPrevious;
      assert states'[j].dep.row.state == copy && states'[j].dep.row.previous == copyPrevious;
    case _ =>
  }

  /** A submission that has read everything in state `at` of the run. */
  ghost function ReadAt(states: seq<Sys>, at: nat, a: Submit): Event
    requires at < |states|
  {
    var s := states[at];
    Submitted(a, Read(CopyOf(s), at, WasRejected(s.requests, s.name, a.digest), at, PendingOf(s), at), true)
  }

  /** A model and a submission of it. */
  ghost predicate IsFirst(s: Sys, a: Submit) {
    && IsNew(s) && s.requests == [] && IsModelName(a.name)
    && a.name == s.name && a.source == s.source && a.image == s.image && a.mode == s.dep.row.mode
  }

  /** The model has only been submitted, and nothing is at work on it. */
  ghost predicate IsFiled(s: Sys, a: Submit, status: Status) {
    && D.CanWrite(s.dep) && s.name == a.name && |s.requests| == 1
    && s.requests[0] == Request(a.name, a.digest, a.resources, status) && s.image == a.image && s.source == a.source
    && s.dep.row.mode == a.mode && s.dep.row.current.None? && s.dep.row.failed.None? && s.dep.row.approved.None?
    && s.dep.tasks == map[] && s.dep.next == 0 && s.dep.lock.None?
    && (s.dep.row.state.PendingApproval? || s.dep.row.state.Failed?)
  }

  lemma FirstRequest(s: Sys, a: Submit) returns (states: seq<Sys>, steps: seq<Event>)
    requires IsFirst(s, a)
    ensures IsRun(states, steps) && |states| == 2 && states[0] == s && steps == [ReadAt([s], 0, a)]
    ensures IsFiled(states[1], a, Pending) && states[1].dep.row.state.PendingApproval?
    ensures states[1].dep.row.pending == Some(a.digest)
  {
    states, steps := Grow([s], [], ReadAt([s], 0, a));
    assert Supersede([], {}) == [];
  }

  const APPROVE: Event := Approves(0, Pending, PendingApproval, None, None)

  function Reject(a: Submit): Event { Rejects(0, Pending, PendingApproval, false, Some(a.digest)) }

  lemma ApprovalClaims(s: Sys, a: Submit, status: Status)
    requires IsFiled(s, a, status)
    ensures Enabled(s, APPROVE) && Grants(s, APPROVE)
    ensures var s' := Do(s, APPROVE);
      && s'.name == s.name && s'.image == s.image && s'.source == s.source
      && s'.requests == [Request(a.name, a.digest, a.resources, Approved)]
      && s'.dep.row.state.Deploying? && s'.dep.row.mode == s.dep.row.mode && s'.dep.row.current.None?
      && s'.dep.row.approved == Some(a.resources) && s'.dep.row.failed.None? && s'.dep.lock.None?
      && s'.dep.status == s.dep.status && s'.dep.sleeper == s.dep.sleeper && s'.dep.next == 1
      && s'.dep.tasks.Keys == {0} && s'.dep.tasks[0].Queued? && s'.dep.tasks[0].digest == a.digest
  {
  }

  lemma RejectionFails(s: Sys, a: Submit)
    requires s.name == a.name && |s.requests| == 1 && s.requests[0].model == a.name && s.requests[0].digest == a.digest
    requires D.CanWrite(s.dep)
    ensures Enabled(s, Reject(a))
    ensures var s' := Do(s, Reject(a));
      && s'.requests == [s.requests[0].(status := Rejected)]
      && s'.dep.row.state.Failed? && s'.dep.tasks == s.dep.tasks && s'.dep.next == s.dep.next
      && s'.dep.status == s.dep.status && s'.dep.sleeper == s.dep.sleeper
    ensures IsFiled(s, a, Pending) ==> IsFiled(Do(s, Reject(a)), a, Rejected)
    ensures s.dep.row.pending == Some(a.digest) ==> Do(s, Reject(a)).dep.row.pending.None?
  {
  }

  lemma OnlyOne(s: D.Sys)
    requires s.status.Running? && s.tasks.Keys == {0} && s.tasks[0].Queued?
    ensures I.SoleOwner(s) <==> Busy(s.row.state)
  {
    assert D.IsOwner(s.tasks[0]);
  }

  /** An approval that read the request before it was rejected deploys the rejected version. */
  lemma LateApprovalDeploys(s: Sys, a: Submit) returns (states: seq<Sys>, steps: seq<Event>)
    requires IsFirst(s, a)
    ensures IsRun(states, steps) && |steps| == 3 && states[0] == s
    ensures WasRejected(states[2].requests, a.name, a.digest) && Late(states[2], steps[2])
    ensures states[3].dep.row.state.Deploying? && 0 in states[3].dep.tasks && states[3].dep.tasks[0].Queued?
    ensures states[3].dep.tasks[0].digest == a.digest && !WasRejected(states[3].requests, a.name, a.digest)
  {
    states, steps := FirstRequest(s, a);
    RejectionFails(states[1], a);
    states, steps := Grow(states, steps, Reject(a));
    assert states[2].requests[0].status.Rejected?;
    ApprovalClaims(states[2], a, Rejected);
    states, steps := Grow(states, steps, APPROVE);
  }

  /** A rejection that read the model before it was approved marks the model failed under its deploy. */
  lemma LateRejectionOverwrites(s: Sys, a: Submit) returns (states: seq<Sys>, steps: seq<Event>)
    requires IsFirst(s, a)
    ensures IsRun(states, steps) && |steps| == 3 && states[0] == s
    ensures states[2].requests != [] && states[3].requests != []
    ensures states[2].requests[0].status.Approved? && states[3].requests[0].status.Rejected?
    ensures Late(states[2], steps[2])
    ensures I.SoleOwner(states[2].dep) && !I.SoleOwner(states[3].dep)
  {
    states, steps := FirstRequest(s, a);
    ApprovalClaims(states[1], a, Pending);
    states, steps := Grow(states, steps, APPROVE);
    RejectionFails(states[2], a);
    states, steps := Grow(states, steps, Reject(a));
    OnlyOne(states[2].dep);
    OnlyOne(states[3].dep);
  }

  /** The submission fits the model, which has no grant and does not know the digest. */
  predicate NeedsAdmin(c: Copy, a: Submit) {
    && IsModelName(a.name) && a.source == c.source && a.image == c.image && a.mode == c.row.mode
    && !c.row.state.Removed? && c.row.approved.None?
    && c.row.current.None? && c.row.failed.None? && c.row.pending != Some(a.digest)
  }

  /** Such a submission files a request, whatever has happened since it read the row. */
  lemma NeedyFiles(s: Sys, e: Event)
    requires Enabled(s, e) && e.Submitted? && NeedsAdmin(e.read.copy, e.a) && !e.read.rejected
    ensures Files(s, e)
    ensures var s' := Do(s, e);
      && s'.requests == Supersede(s.requests, e.read.seen) + [Request(s.name, e.a.digest, e.a.resources, Pending)]
      && s'.name == s.name && s'.image == s.image && s'.source == s.source
      && s'.dep == s.dep.(row := s.dep.row.(pending := Some(e.a.digest)))
  {
  }

  /** Two submissions that overlap: both have read that nothing waits, and both file a request. */
  lemma OverlappingSubmissionsFile(s: Sys, a: Submit, a': Submit) returns (states: seq<Sys>, steps: seq<Event>)
    requires IsFirst(s, a) && IsFirst(s, a') && a.digest != a'.digest
    ensures IsRun(states, steps) && |steps| == 2 && states[0] == s && FilesBlindly(states[1], steps[1])
    ensures steps == [ReadAt([s], 0, a), ReadAt([s], 0, a')] && PendingOf(states[2]) == {0, 1}
  {
    states, steps := FirstRequest(s, a);
    var e := ReadAt([s], 0, a');
    NeedyFiles(states[1], e);
    states, steps := Grow(states, steps, e);
    assert 0 in PendingOf(states[1]) && 0 !in e.read.seen;
  }

  /** The first request has been rejected, and a submission that had read it as pending is written after that. */
  lemma SupersededAfterRejection(s: Sys, a: Submit, a': Submit) returns (states: seq<Sys>, steps: seq<Event>)
    requires IsFirst(s, a) && IsFirst(s, a') && a.digest != a'.digest
    ensures IsRun(states, steps) && |steps| == 3 && states[0] == s
    ensures WasRejected(states[2].requests, a.name, a.digest) && steps[2].Submitted? && Late(states[2], steps[2])
    ensures NeedsAdmin(CopyOf(states[3]), a) && D.CanWrite(states[3].dep) && states[3].name == a.name
    ensures states[3].requests ==
      [Request(a.name, a.digest, a.resources, Status.Superseded), Request(a.name, a'.digest, a'.resources, Pending)]
  {
    states, steps := FirstRequest(s, a);
    var e := ReadAt(states, 1, a');
    RejectionFails(states[1], a);
    states, steps := Grow(states, steps, Reject(a));
    assert states[2].requests[0].status.Rejected?;
    assert 0 in e.read.seen && OwnRequest(states[2], 0);
    NeedyFiles(states[2], e);
    states, steps := Grow(states, steps, e);
  }

  /** A submission that has read a request as pending supersedes it after it was rejected: the rejected digest can be
      submitted again, and files a request again. */
  lemma LateSupersessionForgets(s: Sys, a: Submit, a': Submit) returns (states: seq<Sys>, steps: seq<Event>)
    requires IsFirst(s, a) && IsFirst(s, a') && a.digest != a'.digest
    ensures IsRun(states, steps) && |steps| == 4 && states[0] == s
    ensures WasRejected(states[2].requests, a.name, a.digest) && steps[2].Submitted? && Late(states[2], steps[2])
    ensures !WasRejected(states[3].requests, a.name, a.digest)
    ensures steps[3].Submitted? && steps[3].a == a && UpToDate(states[3], steps[3]) && Files(states[3], steps[3])
  {
    states, steps := SupersededAfterRejection(s, a, a');
    assert !WasRejected(states[3].requests, a.name, a.digest);
    var again := ReadAt(states, 3, a);
    NeedyFiles(states[3], again);
    states, steps := Grow(states, steps, again);
  }

  /** A poll loses its claim to the approval of a request that it has read as pending, and marks it superseded. This
      happens after every run that ends with an approval, to every submission that could have deployed just before. */
  lemma LostClaimSupersedes(states: seq<Sys>, steps: seq<Event>, a: Submit)
    returns (states': seq<Sys>, steps': seq<Event>)
    requires IsRun(states, steps) && steps != []
    requires var n := |steps| - 1; Grants(states[n], steps[n]) && steps[n].id in PendingOf(states[n])
    requires var n := |steps| - 1;
      && a.name == states[n].name
      && OutcomeAt(states[n], ReadAt(states, n, a)).Deploy? && Startable(states[n].dep.row.state)
    ensures IsRun(states', steps') && |states'| == |states| + 1 && states'[..|states|] == states
    ensures steps' == steps + [ReadAt(states, |steps| - 1, a)] && Late(states'[|steps|], steps'[|steps|])
    ensures var id := steps[|steps| - 1].id;
      && OwnRequest(states'[|steps|], id) && OwnRequest(states'[|steps| + 1], id)
      && states'[|steps|].requests[id].status.Approved? && states'[|steps| + 1].requests[id].status.Superseded?
  {
    var n := |steps| - 1;
    var e := ReadAt(states, n, a);
    assert Follows(states, steps, n);
    StepKeeps(states[n], steps[n]);
    forall id | id in e.read.seen ensures OwnRequest(states[n + 1], id) { assert OwnRequest(states[n], id); }
    states', steps' := Grow(states, steps, e);
    SubmissionRequests(states[n + 1], e);
    assert steps[n].id in e.read.seen;
  }

  /** A model that has a grant, and nobody at work on it: its first deploy died before it began. */
  ghost predicate HasGrant(s: Sys, a: Submit) {
    && D.CanWrite(s.dep) && s.name == a.name && s.image == a.image && s.source == a.source && s.dep.row.mode == a.mode
    && s.requests == [Request(a.name, a.digest, a.resources, Approved)]
    && s.dep.row.state.Failed? && s.dep.row.current.None? && s.dep.row.failed.None?
    && s.dep.row.pending == Some(a.digest) && s.dep.row.approved == Some(a.resources)
  }

  lemma GrantRun(s: Sys, a: Submit) returns (states: seq<Sys>, steps: seq<Event>)
    requires IsFirst(s, a)
    ensures IsRun(states, steps) && |steps| == 4 && states[0] == s && HasGrant(states[4], a)
  {
    states, steps := FirstRequest(s, a);
    ApprovalClaims(states[1], a, Pending);
    states, steps := Grow(states, steps, APPROVE);
    CrashAndRepair(states[2]);
    states, steps := Grow(states, steps, Steps(D.Guard(0, D.EarlyCrash)));
    states, steps := Grow(states, steps, Steps(D.Guard(0, D.Repair)));
  }

  lemma CrashAndRepair(s: Sys)
    requires D.CanWrite(s.dep) && s.dep.lock.None? && 0 in s.dep.tasks && s.dep.tasks[0].Queued?
    requires s.dep.row.state.Deploying? && s.dep.row.current.None?
    ensures Enabled(s, Steps(D.Guard(0, D.EarlyCrash)))
    ensures var s1 := Do(s, Steps(D.Guard(0, D.EarlyCrash)));
      && Enabled(s1, Steps(D.Guard(0, D.Repair)))
      && var s2 := Do(s1, Steps(D.Guard(0, D.Repair)));
      && s2.dep.row == s.dep.row.(state := Failed) && D.CanWrite(s2.dep)
      && s2 == s.(dep := s2.dep)
  {
  }

  /** A submission beyond the grant waits as request 1. */
  lemma BeyondGrantFiles(s: Sys, e: Event, a: Submit)
    requires HasGrant(s, a) && UpToDate(s, e) && Enabled(s, e) && IsModelName(a.name)
    requires e.a == a.(digest := e.a.digest, resources := e.a.resources) && e.a.digest != a.digest
    requires Exceeds(e.a.resources, Some(a.resources))
    ensures Do(s, e) == s.(requested := Some(e.a.resources),
      dep := s.dep.(row := s.dep.row.(pending := Some(e.a.digest))),
      requests := s.requests + [Request(a.name, e.a.digest, e.a.resources, Pending)])
  {
    SubmissionRequests(s, e);
    assert PendingOf(s) == {};
    assert Supersede(s.requests, {}) == s.requests;
  }

  lemma WithinDeploys(c: Copy, a: Submit, beyond: Submit, within: Submit)
    requires IsModelName(a.name) && c.image == a.image && c.source == a.source && c.row.mode == a.mode
    requires c.row.state.Failed? && c.row.current.None? && c.row.failed.None?
    requires c.row.pending == Some(beyond.digest) && c.row.approved == Some(a.resources)
    requires within == a.(digest := within.digest, resources := within.resources) && within.digest != beyond.digest
    requires !Exceeds(within.resources, Some(a.resources))
    ensures OutcomeGiven(View(a.name, c), false, within).Deploy?
  {
  }

  /** `beyond` is submitted to a model that has a grant. */
  lemma BeyondRun(s: Sys, a: Submit, beyond: Submit) returns (states: seq<Sys>, steps: seq<Event>)
    requires IsFirst(s, a) && beyond == a.(digest := beyond.digest, resources := beyond.resources)
    requires a.digest != beyond.digest && Exceeds(beyond.resources, Some(a.resources))
    ensures IsRun(states, steps) && |steps| == 5 && states[0] == s && Waits(states[5], a, beyond)
  {
    states, steps := GrantRun(s, a);
    var e := ReadAt(states, 4, beyond);
    BeyondGrantFiles(states[4], e, a);
    states, steps := Grow(states, steps, e);
  }

  ghost predicate Waits(s: Sys, a: Submit, beyond: Submit) {
    && D.CanWrite(s.dep) && s.name == a.name && s.image == a.image && s.source == a.source && s.dep.row.mode == a.mode
    && s.requests == [Request(a.name, a.digest, a.resources, Approved),
                       Request(a.name, beyond.digest, beyond.resources, Pending)]
    && s.dep.row.state.Failed? && s.dep.row.current.None? && s.dep.row.failed.None?
    && s.dep.row.pending == Some(beyond.digest) && s.dep.row.approved == Some(a.resources)
  }

  /** Such a run exists: `a` is approved but its deploy dies early, `beyond` waits for an admin, the poller reads that
      and `within`, the admin approves `beyond`, and the poller's claim loses. */
  lemma LostClaimRun(s: Sys, a: Submit, beyond: Submit, within: Submit) returns (states: seq<Sys>, steps: seq<Event>)
    requires IsFirst(s, a)
    requires beyond == a.(digest := beyond.digest, resources := beyond.resources)
    requires within == a.(digest := within.digest, resources := within.resources)
    requires a.digest != beyond.digest && a.digest != within.digest && beyond.digest != within.digest
    requires Exceeds(beyond.resources, Some(a.resources)) && !Exceeds(within.resources, Some(a.resources))
    ensures IsRun(states, steps) && |steps| == 7 && states[0] == s && Late(states[6], steps[6])
    ensures OwnRequest(states[6], 1) && states[6].requests[1].status.Approved?
    ensures OwnRequest(states[7], 1) && states[7].requests[1].status.Superseded?
  {
    states, steps := BeyondRun(s, a, beyond);
    ghost var waiting := states[5];
    var approve := Approves(1, Pending, Failed, Some(a.resources), None);
    assert 1 in PendingOf(waiting) && Grants(waiting, approve);
    states, steps := Grow(states, steps, approve);
    WithinDeploys(CopyOf(waiting), a, beyond, within);
    assert !WasRejected(waiting.requests, a.name, within.digest);
    states, steps := LostClaimSupersedes(states, steps, within);
  }
}
