/** Registration and the approval workflow (app/registry/service.py), and the poller that feeds it
    (app/poller/service.py). */
module Registry {
  import opened Options
  import opened Resources
  import opened States
  import opened Labels

  type Digest = string

  datatype Source = Ghcr | Local

  datatype Model = Model(
    image: string,
    mode: Mode,
    source: Source,
    state: State,
    current: Option<Digest>,
    previous: Option<Digest>,
    pending: Option<Digest>,
    failed: Option<Digest>,
    approved: Option<Resources>,
    requested: Option<Resources>)

  datatype Status = Pending | Approved | Rejected | Superseded

  /** A row of `resource_requests`; its id is its index. A model row is never deleted, so its name stands for its id. */
  datatype Request = Request(model: string, digest: Digest, requested: Resources, status: Status)

  datatype Submit = Submit(
    name: string, image: string, digest: Digest, mode: Mode, resources: Resources, source: Source)

  datatype Outcome = Noop | Deploy | Approval | Refused

  datatype Error = NotFound | Conflict | Invalid

  // ----- the specification of a submission -----

  function NewModel(a: Submit): Model {
    Model(a.image, a.mode, a.source, PendingApproval, None, None, None, None, None, None)
  }

  /** A name belongs to one image and one mode until it is removed. */
  predicate Mismatch(m: Model, a: Submit) {
    || m.source != a.source
    || (a.source.Ghcr? && m.image != a.image)
    || a.mode != m.mode
  }

  predicate IsRefused(models: map<string, Model>, a: Submit) {
    !IsModelName(a.name) ||
    (a.name in models && !models[a.name].state.Removed? && Mismatch(models[a.name], a))
  }

  /** The model row the submission works on: a new one, a removed one started from scratch, or the existing one
      (a local model may move to another tag). */
  function Target(models: map<string, Model>, a: Submit): Model {
    if a.name !in models then NewModel(a)
    else if models[a.name].state.Removed? then NewModel(a).(requested := models[a.name].requested)
    else models[a.name].(image := a.image)
  }

  ghost predicate WasRejected(requests: seq<Request>, name: string, digest: Digest) {
    exists i :: 0 <= i < |requests| &&
      requests[i].model == name && requests[i].digest == digest && requests[i].status.Rejected?
  }

  /** The row knows the digest already. */
  predicate Holds(m: Model, digest: Digest) {
    Some(digest) == m.current || Some(digest) == m.pending || Some(digest) == m.failed
  }

  /** What becomes of a submission that has read `models`, and whether its digest was rejected before. */
  function OutcomeGiven(models: map<string, Model>, rejected: bool, a: Submit): Outcome {
    if IsRefused(models, a) then Refused
    else if Holds(Target(models, a), a.digest) || rejected then Noop
    else if !Exceeds(a.resources, Target(models, a).approved) then Deploy
    else Approval
  }

  ghost function OutcomeOf(models: map<string, Model>, requests: seq<Request>, a: Submit): Outcome {
    OutcomeGiven(models, WasRejected(requests, a.name, a.digest), a)
  }

  /** Every pending request of `name` superseded, everything else untouched. */
  ghost predicate AllSuperseded(before: seq<Request>, after: seq<Request>, name: string) {
    && |after| == |before|
    && forall i :: 0 <= i < |before| ==>
         after[i] ==
           if before[i].model == name && before[i].status.Pending? then before[i].(status := Superseded)
           else before[i]
  }

  // ----- what the request table keeps -----

  /** `latest[m]` is the request that the last submission of `m` with any effect filed, if it filed one. Only that
      request can still be pending. */
  ghost predicate LatestOnly(requests: seq<Request>, latest: map<string, Option<nat>>) {
    forall i :: 0 <= i < |requests| && requests[i].status.Pending? ==>
      requests[i].model in latest && latest[requests[i].model] == Some(i)
  }

  lemma AtMostOnePending(requests: seq<Request>, latest: map<string, Option<nat>>, i: nat, j: nat)
    requires LatestOnly(requests, latest) && i < |requests| && j < |requests|
    requires requests[i].model == requests[j].model && requests[i].status.Pending? && requests[j].status.Pending?
    ensures i == j
  {
  }

  /** Rows are only added; a row keeps its model, digest and request; a decided or superseded row keeps its status. */
  ghost predicate Final(before: seq<Request>, after: seq<Request>) {
    && |before| <= |after|
    && (forall i :: 0 <= i < |before| ==> after[i] == before[i].(status := after[i].status))
    && (forall i :: 0 <= i < |before| && !before[i].status.Pending? ==> after[i] == before[i])
  }

  lemma SupersededIsFinal(
    before: seq<Request>, after: seq<Request>, name: string, latest: map<string, Option<nat>>, next: Option<nat>)
    requires AllSuperseded(before, after, name) && LatestOnly(before, latest)
    ensures Final(before, after) && LatestOnly(after, latest[name := next])
    ensures forall i :: 0 <= i < |after| && after[i].model == name ==> !after[i].status.Pending?
  {
  }

  class RegistryService {
    var models: map<string, Model>
    var requests: seq<Request>

    ghost var latest: map<string, Option<nat>>

    ghost predicate Valid()
      reads this
    {
      && LatestOnly(requests, latest)
      && (forall i :: 0 <= i < |requests| ==> requests[i].model in models)
    }

    constructor ()
      ensures Valid() && models == map[] && requests == []
    {
      models, requests, latest := map[], [], map[];
    }

    method SupersedePending(name: string)
      modifies this`requests
      ensures AllSuperseded(old(requests), requests, name)
    {
      for i := 0 to |requests|
        invariant |requests| == |old(requests)|
        invariant forall j :: i <= j < |requests| ==> requests[j] == old(requests)[j]
        invariant AllSuperseded(old(requests)[..i], requests[..i], name)
      {
        if requests[i].model == name && requests[i].status.Pending? {
          requests := requests[i := requests[i].(status := Superseded)];
        }
      }
      assert requests[..|requests|] == requests && old(requests)[..|requests|] == old(requests);
    }

    method FindRejected(name: string, digest: Digest) returns (found: bool)
      ensures found <==> WasRejected(requests, name, digest)
    {
      for i := 0 to |requests|
        invariant !WasRejected(requests[..i], name, digest)
      {
        if requests[i].model == name && requests[i].digest == digest && requests[i].status.Rejected? { return true; }
      }
      assert requests[..|requests|] == requests;
      return false;
    }

    /** A new digest of an image. On a refusal nothing changes; a no-op leaves the request table alone; anything
        else first supersedes what was waiting, then deploys within the current grant or asks an admin. */
    method SubmitDigest(a: Submit) returns (o: Outcome)
      requires Valid()
      modifies this
      ensures Valid() && Final(old(requests), requests)
      ensures o == OutcomeOf(old(models), old(requests), a)
      ensures o.Refused? ==> models == old(models)
      ensures !o.Refused? && a.name in old(models) && !old(models)[a.name].state.Removed? ==>
        var m := old(models)[a.name];
        o.Noop? <==>
          || m.current == Some(a.digest) || m.pending == Some(a.digest) || m.failed == Some(a.digest)
          || WasRejected(old(requests), a.name, a.digest)
      ensures o.Refused? || o.Noop? ==> requests == old(requests) && latest == old(latest)
      ensures o.Noop? ==> models == old(models)[a.name := Target(old(models), a)]
      ensures o.Deploy? ==>
        && models == old(models)[a.name := Target(old(models), a).(requested := Some(a.resources), pending := None)]
        && AllSuperseded(old(requests), requests, a.name) && latest == old(latest)[a.name := None]
      ensures o.Approval? ==>
        && models == old(models)[
           a.name := Target(old(models), a).(requested := Some(a.resources), pending := Some(a.digest))]
        && |requests| == |old(requests)| + 1 && AllSuperseded(old(requests), requests[..|old(requests)|], a.name)
        && requests[|old(requests)|] == Request(a.name, a.digest, a.resources, Pending)
        && latest == old(latest)[a.name := Some(|old(requests)|)]
    {
      var target := FindTarget(a);
      if target.None? { return Refused; }
      var model := target.value;
      var rejected := FindRejected(a.name, a.digest);
      var known := Some(a.digest) == model.current || Some(a.digest) == model.pending || Some(a.digest) == model.failed;
      if known || rejected {
        models := models[a.name := model];
        return Noop;
      }
      o := Accept(a, model.(requested := Some(a.resources)));
    }

    /** A submission with an effect: it replaces whatever was waiting, then deploys or files a request. */
    method Accept(a: Submit, model: Model) returns (o: Outcome)
      requires Valid()
      modifies this
      ensures Valid() && Final(old(requests), requests)
      ensures o == if Exceeds(a.resources, model.approved) then Approval else Deploy
      ensures o.Deploy? ==>
        && models == old(models)[a.name := model.(pending := None)]
        && AllSuperseded(old(requests), requests, a.name) && latest == old(latest)[a.name := None]
      ensures o.Approval? ==>
        && models == old(models)[a.name := model.(pending := Some(a.digest))]
        && |requests| == |old(requests)| + 1 && AllSuperseded(old(requests), requests[..|old(requests)|], a.name)
        && requests[|old(requests)|] == Request(a.name, a.digest, a.resources, Pending)
        && latest == old(latest)[a.name := Some(|old(requests)|)]
    {
      SupersedePending(a.name);
      ghost var superseded := requests;
      if !Exceeds(a.resources, model.approved) {
        SupersededIsFinal(old(requests), requests, a.name, latest, None);
        models := models[a.name := model.(pending := None)];
        latest := latest[a.name := None];
        return Deploy;
      }
      SupersededIsFinal(old(requests), requests, a.name, latest, Some(|requests|));
      latest := latest[a.name := Some(|requests|)];
      requests := requests + [Request(a.name, a.digest, a.resources, Pending)];
      assert requests[..|superseded|] == superseded;
      models := models[a.name := model.(pending := Some(a.digest))];
      return Approval;
    }

    /** The row a submission works on, or nothing when it is refused. */
    method FindTarget(a: Submit) returns (target: Option<Model>)
      ensures target == if IsRefused(models, a) then None else Some(Target(models, a))
    {
      if !IsModelName(a.name) { return None; }
      if a.name !in models { return Some(NewModel(a)); }
      var model := models[a.name];
      if model.state.Removed? {
        model := model.(image := a.image, mode := a.mode, source := a.source, state := PendingApproval);
        model := model.(current := None, previous := None, pending := None, failed := None, approved := None);
      } else {
        if model.source != a.source || (a.source.Ghcr? && model.image != a.image) { return None; }
        if a.mode != model.mode { return None; }
        if model.image != a.image { model := model.(image := a.image); }
      }
      return Some(model);
    }

    /** The request row, if it is still open. */
    function Open(id: nat): (e: Option<Error>)
      reads this
      ensures e.None? <==> id < |requests| && requests[id].status.Pending?
    {
      if id >= |requests| then Some(NotFound) else if !requests[id].status.Pending? then Some(Conflict) else None
    }

    /** Grants a request, or a part of it, to its model. */
    method Approve(id: nat, override: Option<Resources>) returns (e: Option<Error>)
      requires Valid()
      modifies this
      ensures Valid() && Final(old(requests), requests) && latest == old(latest)
      ensures old(Open(id)).Some? ==> e == old(Open(id))
      ensures e == Some(Invalid) <==>
        old(Open(id)).None? && override.Some? && !Within(override.value, old(requests)[id].requested)
      ensures e.Some? ==> models == old(models) && requests == old(requests)
      ensures e.None? ==>
        var r := old(requests)[id];
        var granted := if override.Some? then override.value else r.requested;
        && Within(granted, r.requested)
        && requests == old(requests)[id := r.(status := Approved)]
        && models == old(models)[r.model := old(models)[r.model].(approved := Some(granted))]
    {
      e := Open(id);
      if e.Some? { return; }
      var r := requests[id];
      var granted := if override.Some? then override.value else r.requested;
      if Exceeds(granted, Some(r.requested)) { return Some(Invalid); }
      models := models[r.model := models[r.model].(approved := Some(granted))];
      requests := requests[id := r.(status := Approved)];
    }

    /** Refuses a request for good; a model that never ran fails with it. */
    method Reject(id: nat) returns (e: Option<Error>)
      requires Valid()
      modifies this
      ensures Valid() && Final(old(requests), requests) && latest == old(latest) && e == old(Open(id))
      ensures e.Some? ==> models == old(models) && requests == old(requests)
      ensures e.None? ==>
        var r, m := old(requests)[id], old(models)[old(requests)[id].model];
        && requests == old(requests)[id := r.(status := Rejected)]
        && WasRejected(requests, r.model, r.digest)
        && models == old(models)[r.model := m.(
             pending := if m.pending == Some(r.digest) then None else m.pending,
             state := if m.current.None? && m.state.PendingApproval? then Failed else m.state)]
    {
      e := Open(id);
      if e.Some? { return; }
      var r := requests[id];
      var m := models[r.model];
      requests := requests[id := r.(status := Rejected)];
      assert requests[id].status.Rejected?;
      if m.pending == Some(r.digest) { m := m.(pending := None); }
      if m.current.None? && m.state.PendingApproval? { m := m.(state := Failed); }
      models := models[r.model := m];
    }
  }

  /** A submission deploys without a human exactly when it is new and asks, pointwise, for no more than the model's
      current grant. */
  lemma AutoDeployIff(models: map<string, Model>, rejected: bool, a: Submit)
    ensures OutcomeGiven(models, rejected, a).Deploy? <==>
      && !IsRefused(models, a) && !rejected
      && a.name in models && !models[a.name].state.Removed?
      && models[a.name].current != Some(a.digest) && models[a.name].pending != Some(a.digest)
      && models[a.name].failed != Some(a.digest)
      && models[a.name].approved.Some? && Within(a.resources, models[a.name].approved.value)
  {
  }

  // ----- the poller -----

  /** What the labels of an image say. */
  datatype ImageLabels = NotAModel | BadLabels | Parsed(name: string, mode: Mode, resources: Resources)

  datatype Handled =
    | Nothing        // no digest, or the digest was seen before
    | NotModel
    | BadImage       // invalid labels
    | NameTaken      // the registry refused the submission
    | Known          // nothing to do
    | Awaiting       // a request waits for an admin
    | Claimed        // a deploy was started
    | Postponed      // the model is busy: the next tick tries again

  class Poller {
    const registry: RegistryService
    const org: string
    var seen: map<string, Digest>   // package to the last digest fully handled

    constructor (registry: RegistryService, org: string)
      ensures this.registry == registry && this.org == org && seen == map[]
    {
      this.registry, this.org, seen := registry, org, map[];
    }

    function Submission(package: string, digest: Digest, labels: ImageLabels): Submit
      requires labels.Parsed?
    {
      Submit(labels.name, "ghcr.io/" + org + "/" + package, digest, labels.mode, labels.resources, Ghcr)
    }

    /** One package. `winner` is what another request commits between the reads and the UPDATE of `begin`, if one does:
        the refresh of the row then drops what the submission wrote to the model, though not the requests it
        superseded. A digest is recorded as seen exactly when it has been dealt with for good; one whose deploy had to
        be postponed stays unseen, and submitting it again would deploy again, unless the winner has changed what
        that depends on. */
    method PollPackage(package: string, resolved: Option<Digest>, labels: ImageLabels, winner: Option<Winner>)
      returns (h: Handled)
      requires registry.Valid() && MayWin(registry.requests, winner)
      modifies this, registry
      ensures registry.Valid() && Final(old(registry.requests), registry.requests)
      ensures h.Nothing? <==> resolved.None? || (package in old(seen) && old(seen)[package] == resolved.value)
      ensures h.Nothing? || h.NotModel? || h.BadImage? || h.NameTaken? ==>
        registry.models == old(registry.models) && registry.requests == old(registry.requests)
      ensures seen == if h.Nothing? || h.Postponed? then old(seen) else old(seen)[package := resolved.value]
      ensures !h.Nothing? ==> (h.NotModel? <==> labels.NotAModel?) && (h.BadImage? <==> labels.BadLabels?)
      ensures !h.Nothing? && labels.Parsed? ==>
        Handles(old(registry.models), old(registry.requests), registry.models, registry.requests,
                Submission(package, resolved.value, labels), winner, h)
      ensures h.Postponed? && Undisturbed(old(registry.models), Submission(package, resolved.value, labels), winner) ==>
        OutcomeOf(registry.models, registry.requests, Submission(package, resolved.value, labels)).Deploy?
    {
      if resolved.None? || (package in seen && seen[package] == resolved.value) { return Nothing; }
      var digest := resolved.value;
      match labels {
        case NotAModel =>
          seen := seen[package := digest];
          return NotModel;
        case BadLabels =>
          seen := seen[package := digest];
          return BadImage;
        case Parsed(_, _, _) =>
          h := SubmitAndClaim(Submission(package, digest, labels), winner);
          if !h.Postponed? { seen := seen[package := digest]; }
      }
    }

    /** The refreshed row is the winner's; the supersessions are written over its requests. */
    method LoseClaim(models: map<string, Model>, requests: seq<Request>, a: Submit, winner: Winner)
      requires registry.Valid() && a.name in models && registry.models.Keys == models.Keys
      requires MayWin(requests, Some(winner)) && OutcomeOf(models, requests, a).Deploy?
      requires AllSuperseded(requests, registry.requests, a.name)
      modifies registry
      ensures registry.Valid() && Final(requests, registry.requests)
      ensures registry.models == models[a.name := winner.row]
      ensures registry.requests == Overwritten(requests, winner.requests, a.name)
      ensures Undisturbed(models, a, Some(winner)) ==> OutcomeOf(registry.models, registry.requests, a).Deploy?
    {
      ghost var written := registry.requests;
      registry.models := models[a.name := winner.row];
      registry.requests := Overwritten(requests, winner.requests, a.name);
      assert forall i :: 0 <= i < |requests| && registry.requests[i].status.Pending? ==> written[i].status.Pending?;
      if Undisturbed(models, a, Some(winner)) { StillDeploys(models, requests, winner.row, registry.requests, a); }
    }

    /** The transaction of one submission: what it files and, within the grant, the claim. */
    method SubmitAndClaim(a: Submit, winner: Option<Winner>) returns (h: Handled)
      requires registry.Valid() && MayWin(registry.requests, winner)
      modifies registry
      ensures registry.Valid() && Final(old(registry.requests), registry.requests)
      ensures Handles(old(registry.models), old(registry.requests), registry.models, registry.requests, a, winner, h)
      ensures h.Postponed? && Undisturbed(old(registry.models), a, winner) ==>
        OutcomeOf(registry.models, registry.requests, a).Deploy?
    {
      var models0, requests0 := registry.models, registry.requests;
      var o := registry.SubmitDigest(a);
      if o.Deploy? {
        AutoDeployIff(models0, WasRejected(requests0, a.name, a.digest), a);
        if !Startable(registry.models[a.name].state) {
          StillDeploys(models0, requests0, registry.models[a.name], registry.requests, a);
          return Postponed;
        }
        if winner.Some? {
          LoseClaim(models0, requests0, a, winner.value);
          return Postponed;
        }
        registry.models := registry.models[a.name := registry.models[a.name].(state := Deploying)];
      }
      h := match o case Refused => NameTaken case Noop => Known case Approval => Awaiting case Deploy => Claimed;
    }
  }

  /** What another request has committed: the model's row, busy by then, and the requests. */
  datatype Winner = Winner(row: Model, requests: seq<Request>)

  ghost predicate MayWin(requests: seq<Request>, winner: Option<Winner>) {
    winner.Some? ==>
      && Busy(winner.value.row.state)
      && |winner.value.requests| == |requests| && Final(requests, winner.value.requests)
  }

  /** The submission writes its supersessions by id, over whatever the winner has decided. */
  function Overwritten(read: seq<Request>, now: seq<Request>, name: string): (after: seq<Request>)
    requires |read| == |now|
    ensures |after| == |now|
    ensures forall i :: 0 <= i < |now| ==>
      after[i] == if read[i].model == name && read[i].status.Pending? then now[i].(status := Superseded) else now[i]
  {
    seq(|now|, i requires 0 <= i < |now| =>
      if read[i].model == name && read[i].status.Pending? then now[i].(status := Superseded) else now[i])
  }

  /** No winner, or one that has left the grant, the versions and the identity of the model as they were. */
  predicate Undisturbed(models: map<string, Model>, a: Submit, winner: Option<Winner>) {
    winner.Some? && a.name in models ==>
      var m, row := models[a.name], winner.value.row;
      && row.source == m.source && row.mode == m.mode && (row.image == m.image || row.image == a.image)
      && row.approved == m.approved && row.current == m.current && row.failed == m.failed
      && (row.pending.None? || row.pending == m.pending)
  }

  /** What becomes of a submission. */
  ghost predicate Handles(
    models: map<string, Model>, requests: seq<Request>, models': map<string, Model>, requests': seq<Request>,
    a: Submit, winner: Option<Winner>, h: Handled)
    requires MayWin(requests, winner)
  {
    match OutcomeOf(models, requests, a)
    case Refused => h.NameTaken? && models' == models && requests' == requests
    case Noop => h.Known? && models' == models[a.name := Target(models, a)] && requests' == requests
    case Approval =>
      && h.Awaiting?
      && models' == models[a.name := Target(models, a).(requested := Some(a.resources), pending := Some(a.digest))]
      && |requests'| == |requests| + 1 && AllSuperseded(requests, requests'[..|requests|], a.name)
      && requests'[|requests|] == Request(a.name, a.digest, a.resources, Pending)
    case Deploy =>
      && a.name in models && models' == models[a.name := AfterPoll(models, a, winner)]
      && (if winner.Some? && Startable(models[a.name].state)
          then requests' == Overwritten(requests, winner.value.requests, a.name)
          else AllSuperseded(requests, requests', a.name))
      && (h == if winner.None? && Startable(models[a.name].state) then Claimed else Postponed)
  }

  /** The row of a model that has been accepted for deployment, after the attempt to claim it. */
  function AfterPoll(models: map<string, Model>, a: Submit, winner: Option<Winner>): Model
    requires a.name in models
  {
    var m := Target(models, a).(requested := Some(a.resources), pending := None);
    if !Startable(m.state) then m
    else if winner.Some? then winner.value.row
    else m.(state := Deploying)
  }

  /** A submission that was accepted for deployment, but not deployed, would be accepted again. */
  lemma StillDeploys(models: map<string, Model>, requests: seq<Request>, m: Model, requests': seq<Request>, a: Submit)
    requires OutcomeOf(models, requests, a).Deploy?
    requires forall k :: 0 <= k < |requests'| && requests'[k].model == a.name && requests'[k].status.Rejected? ==>
      k < |requests| && requests[k] == requests'[k]
    requires m.source == Target(models, a).source && m.mode == Target(models, a).mode && !m.state.Removed?
    requires m.image == a.image || m.image == models[a.name].image
    requires m.approved == Target(models, a).approved && m.current == Target(models, a).current
    requires m.failed == Target(models, a).failed && (m.pending.None? || m.pending == Target(models, a).pending)
    ensures OutcomeOf(models[a.name := m], requests', a).Deploy?
  {
  }
}
