/** The approval workflow and the deploy protocol of one model together (app/registry/service.py and the handlers in
    app/registry/api.py and app/poller/service.py that call it): what is submitted, decided and claimed, in any order,
    on copies that may be stale, while the machine of `Deployer` runs. Requests of other models come and go. */
module Workflow {
  import opened Options
  import opened Resources
  import opened States
  import opened Registry
  import D = Deployer

  datatype Sys = Sys(
    name: string,
    image: string,
    source: Source,
    requested: Option<Resources>,
    dep: D.Sys,
    requests: seq<Request>)

  /** A handler's in-memory copy of the model's row. */
  datatype Copy = Copy(row: D.Row, image: string, source: Source, requested: Option<Resources>)

  /** What a submission has read before it writes: the row, whether its digest was rejected, and which requests are
      pending. Each is read in a SELECT of its own; the numbers say in which state of the run. */
  datatype Read = Read(copy: Copy, at: nat, rejected: bool, looked: nat, seen: set<nat>, listed: nat)

  /** `read`, `copy` and the like are what a handler has read earlier. */
  datatype Event =
    | Submitted(a: Submit, read: Read, polled: bool)   // by the poller, or by an admin who registers the image
    | Approves(id: nat, was: Status, copy: State, copyGrant: Option<Resources>, override: Option<Resources>)
    | Rejects(id: nat, was: Status, copy: State, copyRan: bool, copyPending: Option<Digest>)
    | Redeploys(copy: State, copyApproved: bool, digest: Digest, clearFailed: bool)  // by an admin or the reconciler
    | RollsBack(copy: State, copyApproved: bool, copyPrevious: Option<Digest>)
    | Steps(e: D.Event)
    | Others(after: seq<Request>)

  function CopyOf(s: Sys): Copy { Copy(s.dep.row, s.image, s.source, s.requested) }

  /** The registry's view of the model. */
  function ModelOf(c: Copy): Model {
    Model(c.image, c.row.mode, c.source, c.row.state, c.row.current, c.row.previous, c.row.pending, c.row.failed,
          c.row.approved, c.requested)
  }

  function View(name: string, c: Copy): map<string, Model> { map[name := ModelOf(c)] }

  function OutcomeAt(s: Sys, e: Event): Outcome
    requires e.Submitted?
  {
    OutcomeGiven(View(s.name, e.read.copy), e.read.rejected, e.a)
  }

  predicate OwnRequest(s: Sys, id: nat) { id < |s.requests| && s.requests[id].model == s.name }

  /** The ids of the model's pending requests. */
  function PendingOf(s: Sys): set<nat> {
    set id: nat | id < |s.requests| && s.requests[id].model == s.name && s.requests[id].status.Pending?
  }

  /** Only the requests of other models have changed, or been added. */
  ghost predicate Foreign(before: seq<Request>, after: seq<Request>, name: string) {
    && |before| <= |after|
    && (forall i :: 0 <= i < |before| ==>
          after[i] == before[i] || (before[i].model != name && after[i].model != name))
    && (forall i :: |before| <= i < |after| ==> after[i].model != name)
  }

  /** These reach the machine through the other events. */
  predicate IsOurs(e: D.Event) {
    e.Ask? && (e.r.Begin? || e.r.Rollback? || e.r.Approve? || e.r.SetPending? || e.r.Reregister? || e.r.Reject?)
  }

  ghost predicate Enabled(s: Sys, e: Event) {
    match e
    case Submitted(a, read, _) =>
      && a.name == s.name && D.CanWrite(s.dep) && (forall id :: id in read.seen ==> OwnRequest(s, id))
      && (read.copy.row.state.Removed? ==> read.copy.row.current.None? && read.copy.row.previous.None?)
    case Approves(id, _, _, _, _) => D.CanWrite(s.dep) && OwnRequest(s, id)
    case Rejects(id, _, _, _, _) => D.CanWrite(s.dep) && OwnRequest(s, id)
    case Redeploys(_, _, _, _) => D.CanWrite(s.dep)
    case RollsBack(_, _, _) => D.CanWrite(s.dep)
    case Steps(d) => D.Enabled(s.dep, d) && !IsOurs(d)
    case Others(after) => Foreign(s.requests, after, s.name)
  }

  // ----- what each step does -----

  /** The requests a submission has read as pending are superseded, by id, whatever has become of them. */
  function Supersede(requests: seq<Request>, seen: set<nat>): seq<Request> {
    seq(|requests|, i requires 0 <= i < |requests| =>
      if i in seen then requests[i].(status := Status.Superseded) else requests[i])
  }

  function Ask(s: Sys, r: D.Request): Sys
    requires D.MayAsk(s.dep, r)
  {
    s.(dep := D.DoAsk(s.dep, r))
  }

  /** An attribute is written only if it differs from the copy. */
  function Put<T(==)>(now: T, read: T, wanted: T): T { if wanted == read then now else wanted }

  /** A removed model starts from scratch. */
  function Renewed(s: Sys, e: Event): Sys
    requires e.Submitted? && D.CanWrite(s.dep)
    requires e.read.copy.row.state.Removed? ==> e.read.copy.row.current.None? && e.read.copy.row.previous.None?
  {
    var c := e.read.copy;
    (if c.row.state.Removed? then Ask(s, D.Reregister(c.row, e.a.mode)) else s).(
      image := Put(s.image, c.image, e.a.image), source := Put(s.source, c.source, e.a.source))
  }

  /** What the submission wants the row to say of the digest that waits, and of what was asked last. */
  function WantedPending(s: Sys, e: Event): Option<Digest>
    requires e.Submitted?
  {
    var m := Target(View(s.name, e.read.copy), e.a);
    match OutcomeAt(s, e)
    case Approval => Some(e.a.digest)
    case Deploy => None
    case _ => m.pending
  }

  function WantedResources(s: Sys, e: Event): Option<Resources>
    requires e.Submitted?
  {
    if OutcomeAt(s, e).Noop? then Target(View(s.name, e.read.copy), e.a).requested else Some(e.a.resources)
  }

  /** The whole UPDATE of the row. */
  function Written(s: Sys, e: Event): Sys
    requires e.Submitted? && D.CanWrite(s.dep)
    requires e.read.copy.row.state.Removed? ==> e.read.copy.row.current.None? && e.read.copy.row.previous.None?
  {
    var renewed := Renewed(s, e);
    var c := e.read.copy;
    (if WantedPending(s, e) == c.row.pending then renewed else Ask(renewed, D.SetPending(WantedPending(s, e)))).(
      requested := Put(s.requested, c.requested, WantedResources(s, e)))
  }

  function Deciding(s: Sys, e: Event, status: Status): seq<Request>
    requires (e.Approves? || e.Rejects?) && e.id < |s.requests|
  {
    s.requests[e.id := s.requests[e.id].(status := status)]
  }

  function Granted(s: Sys, e: Event): Resources
    requires e.Approves? && e.id < |s.requests|
  {
    if e.override.Some? then e.override.value else s.requests[e.id].requested
  }

  /** The approval is allowed by what its handler has read, and its claim by the committed row. */
  predicate Grants(s: Sys, e: Event) {
    && e.Approves? && OwnRequest(s, e.id) && e.was.Pending?
    && !Exceeds(Granted(s, e), Some(s.requests[e.id].requested))
    && Startable(e.copy) && Startable(s.dep.row.state)
  }

  /** The submission deploys without a human, and its claim wins. */
  predicate Automatic(s: Sys, e: Event) {
    e.Submitted? && OutcomeAt(s, e).Deploy? && Startable(e.read.copy.row.state) && Startable(s.dep.row.state)
  }

  /** The claim loses against the committed row: the row is refreshed, and what was to be written to it is dropped. */
  predicate Refreshed(s: Sys, e: Event) {
    e.Submitted? && OutcomeAt(s, e).Deploy? && Startable(e.read.copy.row.state) && !Startable(s.dep.row.state)
  }

  /** A claim that loses makes an admin's handler roll everything back; the poller commits what is left. */
  predicate RolledBack(s: Sys, e: Event) { e.Submitted? && OutcomeAt(s, e).Deploy? && !Automatic(s, e) && !e.polled }

  function Submitting(s: Sys, e: Event): Sys
    requires e.Submitted? && D.CanWrite(s.dep)
    requires e.read.copy.row.state.Removed? ==> e.read.copy.row.current.None? && e.read.copy.row.previous.None?
  {
    if OutcomeAt(s, e).Refused? || RolledBack(s, e) then s
    else
      var s1 := if Refreshed(s, e) then s else Written(s, e);
      match OutcomeAt(s, e)
      case Approval =>
        s1.(requests := Supersede(s.requests, e.read.seen) + [Request(s.name, e.a.digest, e.a.resources, Pending)])
      case Deploy =>
        (if Automatic(s, e) then Ask(s1, D.Begin(e.read.copy.row.state, true, e.a.digest, false)) else s1).(
          requests := Supersede(s.requests, e.read.seen))
      case _ => s1
  }

  ghost function Do(s: Sys, e: Event): Sys
    requires Enabled(s, e)
  {
    match e
    case Submitted(_, _, _) => Submitting(s, e)
    case Approves(id, _, copy, copyGrant, _) =>
      if Grants(s, e) then
        Ask(s, D.Approve(copy, copyGrant, s.requests[id].requested, Granted(s, e), s.requests[id].digest)).(
          requests := Deciding(s, e, Approved))
      else s
    case Rejects(id, was, copy, copyRan, copyPending) =>
      if !was.Pending? then s
      else
        Ask(if copyPending == Some(s.requests[id].digest) then Ask(s, D.SetPending(None)) else s,
            D.Reject(copy, copyRan)).(
          requests := Deciding(s, e, Rejected))
    case Redeploys(copy, copyApproved, digest, clearFailed) => Ask(s, D.Begin(copy, copyApproved, digest, clearFailed))
    case RollsBack(copy, copyApproved, copyPrevious) => Ask(s, D.Rollback(copy, copyApproved, copyPrevious))
    case Steps(d) => s.(dep := D.Do(s.dep, d))
    case Others(after) => s.(requests := after)
  }

  /** Nothing that the submission has read has changed since. */
  ghost predicate UpToDate(s: Sys, e: Event) {
    && e.Submitted? && e.read.copy == CopyOf(s) && e.read.seen == PendingOf(s)
    && (e.read.rejected <==> WasRejected(s.requests, s.name, e.a.digest))
  }

  lemma SupersedesPending(s: Sys)
    ensures AllSuperseded(s.requests, Supersede(s.requests, PendingOf(s)), s.name)
  {
  }

  lemma WrittenIsTarget(s: Sys, e: Event)
    requires UpToDate(s, e) && Enabled(s, e) && !OutcomeAt(s, e).Refused?
    ensures ModelOf(CopyOf(Written(s, e))) ==
      Target(View(s.name, CopyOf(s)), e.a).(pending := WantedPending(s, e), requested := WantedResources(s, e))
  {
  }

  /** Such a submission does to the model and the requests what `RegistryService.SubmitDigest` says. */
  lemma SubmittedAsSpecified(s: Sys, e: Event)
    requires UpToDate(s, e) && Enabled(s, e)
    ensures OutcomeAt(s, e) == OutcomeOf(View(s.name, CopyOf(s)), s.requests, e.a)
    ensures var m, s' := Target(View(s.name, CopyOf(s)), e.a), Do(s, e);
      match OutcomeAt(s, e)
      case Refused => s' == s
      case Noop => ModelOf(CopyOf(s')) == m && s'.requests == s.requests
      case Approval =>
        && ModelOf(CopyOf(s')) == m.(requested := Some(e.a.resources), pending := Some(e.a.digest))
        && |s'.requests| == |s.requests| + 1 && AllSuperseded(s.requests, s'.requests[..|s.requests|], s.name)
        && s'.requests[|s.requests|] == Request(s.name, e.a.digest, e.a.resources, Pending)
      case Deploy =>
        Automatic(s, e) ==>
          && ModelOf(CopyOf(s')) == m.(requested := Some(e.a.resources), pending := None, state := Deploying)
          && AllSuperseded(s.requests, s'.requests, s.name)
  {
    SupersedesPending(s);
    if !OutcomeAt(s, e).Refused? { WrittenIsTarget(s, e); }
    if OutcomeAt(s, e).Approval? {
      assert Do(s, e).requests[..|s.requests|] == Supersede(s.requests, PendingOf(s));
    }
  }

  // ----- runs -----

  /** The model's row has just been created, and nothing has been filed for it. */
  ghost predicate IsNew(s: Sys) {
    && s.dep == D.Initial(s.dep.row.mode) && s.requested.None?
    && forall i :: 0 <= i < |s.requests| ==> s.requests[i].model != s.name
  }

  /** What a handler has read, the database has shown at some time before. */
  ghost predicate WasRead(states: seq<Sys>, i: nat, e: Event)
    requires i < |states|
  {
    match e
    case Submitted(a, read, _) =>
      && read.at <= read.looked <= read.listed <= i
      && read.copy == CopyOf(states[read.at])
      && (read.rejected <==> WasRejected(states[read.looked].requests, states[i].name, a.digest))
      && read.seen == PendingOf(states[read.listed])
    case Redeploys(copy, _, digest, _) =>
      && (exists j :: 0 <= j <= i && Offers(states[j].dep.row, digest))
      && (exists j :: 0 <= j <= i && states[j].dep.row.state == copy)
    case RollsBack(copy, _, copyPrevious) =>
      exists j :: 0 <= j <= i && states[j].dep.row.state == copy && states[j].dep.row.previous == copyPrevious
    case _ => true
  }

  /** `current_digest or failed_digest` */
  predicate Offers(row: D.Row, digest: Digest) {
    Some(digest) == if row.current.Some? then row.current else row.failed
  }

  ghost predicate IsRun(states: seq<Sys>, steps: seq<Event>) {
    && |states| == |steps| + 1
    && IsNew(states[0])
    && forall i :: 0 <= i < |steps| ==> Follows(states, steps, i)
  }

  ghost predicate Follows(states: seq<Sys>, steps: seq<Event>, i: nat)
    requires |states| == |steps| + 1 && i < |steps|
  {
    Enabled(states[i], steps[i]) && WasRead(states, i, steps[i]) && states[i + 1] == Do(states[i], steps[i])
  }
}
