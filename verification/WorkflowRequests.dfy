/** The life of the requests of one model, over every run of the workflow. */
module WorkflowRequests {
  import opened Options
  import opened Resources
  import opened States
  import opened Registry
  import opened Workflow
  import D = Deployer

  // ----- what one step does to the requests -----

  /** The submission files a request. */
  predicate Files(s: Sys, e: Event) { e.Submitted? && OutcomeAt(s, e).Approval? }

  /** The submission has an effect: it replaces what it has seen waiting. */
  predicate Replaces(s: Sys, e: Event) {
    e.Submitted? && (OutcomeAt(s, e).Approval? || (OutcomeAt(s, e).Deploy? && !RolledBack(s, e)))
  }

  /** A request is pending that the submission has not seen. */
  ghost predicate Overlooks(s: Sys, e: Event)
    requires e.Submitted?
  {
    exists id :: id in PendingOf(s) && id !in e.read.seen
  }

  /** A status is written over a decision that was not there when the writer read the request: an approval over
      anything but an approval, a rejection over anything but a rejection, a supersession over either of them. */
  ghost predicate Late(s: Sys, e: Event) {
    match e
    case Approves(id, _, _, _, _) =>
      Grants(s, e) && !s.requests[id].status.Pending? && !s.requests[id].status.Approved?
    case Rejects(id, was, _, _, _) =>
      OwnRequest(s, id) && was.Pending? && !s.requests[id].status.Pending? && !s.requests[id].status.Rejected?
    case Submitted(_, read, _) =>
      Replaces(s, e) &&
      exists id :: id in read.seen && OwnRequest(s, id) &&
        (s.requests[id].status.Approved? || s.requests[id].status.Rejected?)
    case _ => false
  }

  /** Old rows keep what was asked, and none becomes pending again. */
  ghost predicate Keeps(s: Sys, s': Sys) {
    && s'.name == s.name && |s.requests| <= |s'.requests|
    && (forall id :: 0 <= id < |s.requests| && s.requests[id].model == s.name ==>
          s'.requests[id] == s.requests[id].(status := s'.requests[id].status)
          && (s'.requests[id].status.Pending? ==> s.requests[id].status.Pending?))
    && (forall id :: 0 <= id < |s.requests| && s.requests[id].model != s.name ==> s'.requests[id].model != s.name)
  }

  /** The requests after a submission. */
  lemma SubmissionRequests(s: Sys, e: Event)
    requires Enabled(s, e) && e.Submitted?
    ensures Do(s, e).name == s.name
    ensures Do(s, e).requests ==
      if Files(s, e) then Supersede(s.requests, e.read.seen) + [Request(s.name, e.a.digest, e.a.resources, Pending)]
      else if Replaces(s, e) then Supersede(s.requests, e.read.seen)
      else s.requests
  {
  }

  lemma SubmissionKeeps(s: Sys, e: Event)
    requires Enabled(s, e) && e.Submitted?
    ensures Keeps(s, Do(s, e))
    ensures |Do(s, e).requests| == |s.requests| + (if Files(s, e) then 1 else 0)
    ensures Files(s, e) ==>
      Do(s, e).requests[|s.requests|] == Request(s.name, e.a.digest, e.a.resources, Pending)
    ensures Replaces(s, e) ==> forall id :: id in e.read.seen ==> Do(s, e).requests[id].status.Superseded?
    ensures forall id :: 0 <= id < |s.requests| && (id !in e.read.seen || !Replaces(s, e)) ==>
      Do(s, e).requests[id] == s.requests[id]
  {
    SubmissionRequests(s, e);
  }

  lemma StepKeeps(s: Sys, e: Event)
    requires Enabled(s, e)
    ensures Keeps(s, Do(s, e))
    ensures !Files(s, e) ==>
      forall id :: |s.requests| <= id < |Do(s, e).requests| ==> Do(s, e).requests[id].model != s.name
    ensures Files(s, e) ==>
      |Do(s, e).requests| == |s.requests| + 1
      && Do(s, e).requests[|s.requests|] == Request(s.name, e.a.digest, e.a.resources, Pending)
  {
    if e.Submitted? { SubmissionKeeps(s, e); }
  }

  /** The decided rows of the model are as they were. */
  ghost predicate KeepsDecisions(s: Sys, s': Sys) {
    && |s.requests| <= |s'.requests|
    && forall id :: 0 <= id < |s.requests| && s.requests[id].model == s.name && !s.requests[id].status.Pending? ==>
         s'.requests[id] == s.requests[id]
  }

  lemma SubmissionDecidesIff(s: Sys, e: Event)
    requires Enabled(s, e) && e.Submitted?
    ensures KeepsDecisions(s, Do(s, e)) <==> !Late(s, e)
  {
    SubmissionKeeps(s, e);
    if Late(s, e) {
      var id :| id in e.read.seen && OwnRequest(s, id) &&
        (s.requests[id].status.Approved? || s.requests[id].status.Rejected?);
      assert Do(s, e).requests[id].status.Superseded?;
    }
  }

  lemma StepDecidesIff(s: Sys, e: Event)
    requires Enabled(s, e)
    ensures KeepsDecisions(s, Do(s, e)) <==> !Late(s, e)
  {
    if e.Submitted? {
      SubmissionDecidesIff(s, e);
    } else if Late(s, e) {
      assert Do(s, e).requests[e.id] != s.requests[e.id];
    }
  }

  // ----- over runs -----

  lemma RunKeeps(states: seq<Sys>, steps: seq<Event>, i: nat)
    requires IsRun(states, steps) && 0 < i <= |steps|
    ensures Keeps(states[i - 1], states[i])
    ensures !Files(states[i - 1], steps[i - 1]) ==>
      forall id :: |states[i - 1].requests| <= id < |states[i].requests| ==>
        states[i].requests[id].model != states[i - 1].name
    ensures Files(states[i - 1], steps[i - 1]) ==>
      var before, a := states[i - 1].requests, steps[i - 1].a;
      |states[i].requests| == |before| + 1
      && states[i].requests[|before|] == Request(states[i - 1].name, a.digest, a.resources, Pending)
    ensures Replaces(states[i - 1], steps[i - 1]) ==>
      forall id :: id in steps[i - 1].read.seen ==> id !in PendingOf(states[i])
  {
    assert Follows(states, steps, i - 1);
    StepKeeps(states[i - 1], steps[i - 1]);
    if steps[i - 1].Submitted? { SubmissionKeeps(states[i - 1], steps[i - 1]); }
  }

  lemma {:induction false} NameStays(states: seq<Sys>, steps: seq<Event>, i: nat, j: nat)
    requires IsRun(states, steps) && i <= j <= |steps|
    ensures states[j].name == states[i].name && |states[i].requests| <= |states[j].requests|
    decreases j - i
  {
    if i < j {
      NameStays(states, steps, i, j - 1);
      RunKeeps(states, steps, j);
    }
  }

  /** Every request of the model was filed by a submission that needed an admin, and says what that asked. */
  lemma {:induction false} RequestWasFiled(states: seq<Sys>, steps: seq<Event>, i: nat, id: nat) returns (j: nat)
    requires IsRun(states, steps) && i <= |steps| && OwnRequest(states[i], id)
    ensures j < i && Files(states[j], steps[j]) && id == |states[j].requests|
    ensures states[i].requests[id].digest == steps[j].a.digest
    ensures states[i].requests[id].requested == steps[j].a.resources
  {
    RunKeeps(states, steps, i);
    if id < |states[i - 1].requests| {
      j := RequestWasFiled(states, steps, i - 1, id);
    } else {
      j := i - 1;
    }
  }

  // ----- at most one request waits -----

  ghost predicate OneWaits(s: Sys) { forall id, id' :: id in PendingOf(s) && id' in PendingOf(s) ==> id == id' }

  /** A request is filed while another one waits that the submission has not seen. */
  ghost predicate FilesBlindly(s: Sys, e: Event) { Files(s, e) && Overlooks(s, e) }

  lemma FilingLeavesOneIff(s: Sys, e: Event)
    requires Enabled(s, e) && OneWaits(s)
    ensures OneWaits(Do(s, e)) <==> !FilesBlindly(s, e)
  {
    StepKeeps(s, e);
    var s' := Do(s, e);
    if e.Submitted? { SubmissionKeeps(s, e); }
    if FilesBlindly(s, e) {
      var id :| id in PendingOf(s) && id !in e.read.seen;
      assert id in PendingOf(s') && |s.requests| in PendingOf(s');
    } else {
      forall id | id in PendingOf(s') ensures id in PendingOf(s) || (Files(s, e) && id == |s.requests|) {
      }
      if Files(s, e) {
        forall id | id in PendingOf(s) ensures id !in PendingOf(s') {
          assert id in e.read.seen;
        }
      }
    }
  }

  lemma {:induction false} OneWaitsUpTo(states: seq<Sys>, steps: seq<Event>, i: nat)
    requires IsRun(states, steps) && i <= |steps|
    requires forall m :: 0 <= m < i ==> !FilesBlindly(states[m], steps[m])
    ensures OneWaits(states[i])
  {
    if i > 0 {
      OneWaitsUpTo(states, steps, i - 1);
      assert Follows(states, steps, i - 1);
      FilingLeavesOneIff(states[i - 1], steps[i - 1]);
    }
  }

  /** All along a run a model has at most one pending request, if and only if no submission files one while another
      waits that it has not seen. */
  lemma OnePendingIff(states: seq<Sys>, steps: seq<Event>)
    requires IsRun(states, steps)
    ensures (forall i :: 0 <= i <= |steps| ==> OneWaits(states[i]))
            <==> (forall m :: 0 <= m < |steps| ==> !FilesBlindly(states[m], steps[m]))
  {
    if forall m :: 0 <= m < |steps| ==> !FilesBlindly(states[m], steps[m]) {
      forall i | 0 <= i <= |steps| ensures OneWaits(states[i]) { OneWaitsUpTo(states, steps, i); }
    }
    if m :| 0 <= m < |steps| && FilesBlindly(states[m], steps[m]) {
      assert Follows(states, steps, m);
      if OneWaits(states[m]) {
        FilingLeavesOneIff(states[m], steps[m]);
        assert !OneWaits(states[m + 1]);
      }
    }
  }

  /** A request that waits was filed by a submission, and no later one with an effect had seen it. */
  lemma {:induction false} PendingWasOverlooked(states: seq<Sys>, steps: seq<Event>, i: nat, id: nat) returns (j: nat)
    requires IsRun(states, steps) && i <= |steps| && id in PendingOf(states[i])
    ensures j < i && Files(states[j], steps[j]) && id == |states[j].requests|
    ensures forall m :: j < m < i && Replaces(states[m], steps[m]) ==>
      id in PendingOf(states[m]) && id !in steps[m].read.seen
  {
    RunKeeps(states, steps, i);
    if id < |states[i - 1].requests| {
      assert id in PendingOf(states[i - 1]);
      j := PendingWasOverlooked(states, steps, i - 1, id);
    } else {
      j := i - 1;
    }
  }

  /** So, as long as none overlooks a request that waits, the one that waits was filed by the last submission that had
      any effect. */
  lemma PendingIsLatest(states: seq<Sys>, steps: seq<Event>, i: nat, id: nat) returns (j: nat)
    requires IsRun(states, steps) && i <= |steps| && id in PendingOf(states[i])
    requires forall m :: 0 <= m < i && Replaces(states[m], steps[m]) ==> !Overlooks(states[m], steps[m])
    ensures j < i && Files(states[j], steps[j]) && id == |states[j].requests|
    ensures forall m :: j < m < i ==> !Replaces(states[m], steps[m])
  {
    j := PendingWasOverlooked(states, steps, i, id);
  }

  // ----- decisions -----

  lemma {:induction false} DecisionsBetween(states: seq<Sys>, steps: seq<Event>, i: nat, j: nat)
    requires IsRun(states, steps) && i <= j <= |steps|
    requires forall m :: i <= m < j ==> !Late(states[m], steps[m])
    ensures KeepsDecisions(states[i], states[j])
    decreases j - i
  {
    if i < j {
      DecisionsBetween(states, steps, i, j - 1);
      NameStays(states, steps, i, j - 1);
      assert Follows(states, steps, j - 1);
      StepDecidesIff(states[j - 1], steps[j - 1]);
    }
  }

  /** No decision on the model's requests, and no superseded status, ever changes, if and only if no status is written
      late. */
  lemma DecisionsFinalIff(states: seq<Sys>, steps: seq<Event>)
    requires IsRun(states, steps)
    ensures (forall i, j :: 0 <= i <= j <= |steps| ==> KeepsDecisions(states[i], states[j]))
            <==> (forall m :: 0 <= m < |steps| ==> !Late(states[m], steps[m]))
  {
    if forall m :: 0 <= m < |steps| ==> !Late(states[m], steps[m]) {
      forall i, j | 0 <= i <= j <= |steps| ensures KeepsDecisions(states[i], states[j]) {
        DecisionsBetween(states, steps, i, j);
      }
    }
    if m :| 0 <= m < |steps| && Late(states[m], steps[m]) {
      assert Follows(states, steps, m);
      StepDecidesIff(states[m], steps[m]);
      assert !KeepsDecisions(states[m], states[m + 1]);
    }
  }

  /** Once a digest has been rejected, and as long as no status is written late, no submission that looks for
      rejections after that deploys the digest or files a request for it: not after a removal and re-registration
      either. */
  lemma RejectedForGood(states: seq<Sys>, steps: seq<Event>, i: nat, j: nat)
    requires IsRun(states, steps) && j < |steps| && steps[j].Submitted? && i <= steps[j].read.looked <= j
    requires WasRejected(states[i].requests, states[i].name, steps[j].a.digest)
    requires forall m :: i <= m < steps[j].read.looked ==> !Late(states[m], steps[m])
    ensures OutcomeAt(states[j], steps[j]).Noop? || OutcomeAt(states[j], steps[j]).Refused?
  {
    assert Follows(states, steps, j);
    var looked := steps[j].read.looked;
    DecisionsBetween(states, steps, i, looked);
    NameStays(states, steps, i, looked);
    NameStays(states, steps, looked, j);
    var id :| 0 <= id < |states[i].requests| && states[i].requests[id].model == states[i].name
      && states[i].requests[id].digest == steps[j].a.digest && states[i].requests[id].status.Rejected?;
    assert states[looked].requests[id] == states[i].requests[id];
    assert WasRejected(states[looked].requests, states[j].name, steps[j].a.digest);
  }
}
