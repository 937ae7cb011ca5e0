/** The two readiness loops of the deployer (app/deployer/service.py, `_wait_ready` and `_wait_worker_ready`).
    What the cluster and the clock show at each poll is a parameter; the loops themselves are the program's. */
module WaitLoops {
  import opened Options

  datatype Status = Status(
    exists_: bool,
    gpuPending: bool,    // a pending reason that mentions the GPU
    otherPending: bool,  // any other pending reason
    ready: bool,
    restarts: int,
    workerReplicas: int)

  datatype Health = Health(ok: bool, modelLoaded: Option<bool>)

  /** One iteration: `before` is the time right after the status call, `after` the time once the awaits of the
      iteration (a state update or a health probe) are over. */
  datatype Poll = Poll(status: Status, health: Health, heartbeats: seq<bool>, before: real, after: real)

  datatype Settings = Settings(
    deployTimeout: real, gpuWaitMax: real, pollInterval: real, maxRestarts: int, heartbeatGrace: real)

  datatype Outcome =
    | Serving
    | Trusted            // a running worker without heartbeats
    | Disappeared
    | NoGpu
    | StillPending
    | Crashing
    | TimedOut

  function Next(env: nat -> Poll, i: nat): Poll { env(i + 1) }

  /** Each iteration takes between the poll interval and `delta`, and time does not run backwards. */
  ghost predicate WellTimed(env: nat -> Poll, start: real, interval: real, delta: real) {
    && 0.0 < interval
    && start <= env(0).before <= start + delta
    && (forall i: nat {:trigger env(i)} :: env(i).before <= env(i).after <= env(i).before + delta)
    && (forall i: nat {:trigger Next(env, i)} ::
          env(i).after + interval <= Next(env, i).before <= env(i).before + delta)
  }

  /** The polls so far saw the workload, waited for a GPU only before the GPU deadline, and a timeout counts from
      the last such wait. */
  ghost predicate Patient(env: nat -> Poll, s: Settings, start: real, deadline: real, n: nat) {
    forall i :: 0 <= i < n ==>
      && env(i).status.exists_
      && (env(i).status.gpuPending ==>
          env(i).before <= start + s.gpuWaitMax && env(i).after + s.deployTimeout <= deadline)
  }

  /** The poll that `_wait_ready` is waiting for. */
  predicate Serves(p: Poll) {
    p.status.exists_ && !p.status.gpuPending && p.status.ready && p.health.ok && p.health.modelLoaded != Some(false)
  }

  /** None of the first `n` polls decided anything. */
  ghost predicate Undecided(env: nat -> Poll, s: Settings, n: nat) {
    forall i :: 0 <= i < n ==>
      env(i).status.exists_ && !Serves(env(i)) && (env(i).status.gpuPending || env(i).status.restarts <= s.maxRestarts)
  }

  /** Waiting and deploying are reported in turn, waiting first. */
  ghost predicate Alternate(writes: seq<bool>) {
    (writes != [] ==> writes[0]) && forall i :: 0 < i < |writes| ==> writes[i] != writes[i - 1]
  }

  /** The state last reported is waiting-for-GPU. */
  predicate ShowsWaiting(writes: seq<bool>) { writes != [] && writes[|writes| - 1] }

  function Positive(x: real): real { if x > 0.0 then x else 0.0 }

  /** No poll after this time lets a loop go on. */
  function Horizon(s: Settings, start: real, delta: real): real {
    start + Positive(s.gpuWaitMax) + Positive(s.deployTimeout) + delta
  }

  /** The least time that `n` iterations take. */
  ghost function Elapsed(n: nat, interval: real): real {
    if n == 0 then 0.0 else Elapsed(n - 1, interval) + interval
  }

  lemma {:induction false} ElapsedIsProduct(n: nat, interval: real)
    ensures Elapsed(n, interval) == n as real * interval
  {
    if n > 0 {
      ElapsedIsProduct(n - 1, interval);
      var k := (n - 1) as real;
      assert n as real == k + 1.0;
      assert (k + 1.0) * interval == k * interval + interval;
    }
  }

  /** However small the interval, enough iterations pass any time. */
  lemma EnoughPolls(time: real, interval: real) returns (n: nat)
    requires interval > 0.0
    ensures Elapsed(n, interval) > time
  {
    if time < 0.0 { return 0; }
    var q := time / interval;
    assert q * interval == time;
    if q < 0.0 { ScaleUp(q, 0.0, interval); }
    n := q.Floor + 1;
    ElapsedIsProduct(n, interval);
    ScaleUp(q, n as real, interval);
  }

  lemma {:induction false} ElapsedGrows(m: nat, n: nat, interval: real)
    requires m <= n && interval > 0.0
    ensures Elapsed(m, interval) <= Elapsed(n, interval)
  {
    if m < n { ElapsedGrows(m, n - 1, interval); }
  }

  lemma ScaleUp(x: real, y: real, k: real)
    requires x < y && k > 0.0
    ensures x * k < y * k
  {
    assert (y - x) * k > 0.0;
  }

  /** A poll that lets the loop go on comes before the horizon, so only so many can. */
  lemma StillEarly(last: nat, limit: nat, interval: real, start: real, now: real, horizon: real)
    requires interval > 0.0 && start + Elapsed(last, interval) <= now <= horizon
    requires Elapsed(limit, interval) > horizon - start
    ensures last < limit
  {
    if limit <= last { ElapsedGrows(limit, last, interval); }
  }

  /** The time of the last GPU wait before poll `n`, or the start of the loop. */
  function LastWait(env: nat -> Poll, start: real, n: nat): real {
    if n == 0 then start
    else if env(n - 1).status.gpuPending then env(n - 1).after
    else LastWait(env, start, n - 1)
  }

  /** What holds whenever a loop polls again. */
  ghost predicate Going(env: nat -> Poll, s: Settings, start: real, delta: real, last: nat) {
    && start + Elapsed(last, s.pollInterval) <= env(last).before
    && start <= LastWait(env, start, last) <= env(last).before
    && LastWait(env, start, last) <= start + Positive(s.gpuWaitMax) + delta
    && env(last).before <= LastWait(env, start, last) + Positive(s.deployTimeout) + delta
    && (forall i :: 0 <= i < last && env(i).status.gpuPending ==>
          env(i).before <= start + s.gpuWaitMax && env(i).after <= LastWait(env, start, last))
  }

  lemma GoOn(env: nat -> Poll, s: Settings, start: real, delta: real, last: nat, limit: nat)
    requires WellTimed(env, start, s.pollInterval, delta) && Going(env, s, start, delta, last)
    requires Elapsed(limit, s.pollInterval) > Horizon(s, start, delta) + delta - start
    requires if env(last).status.gpuPending then env(last).before <= start + s.gpuWaitMax
             else env(last).after <= LastWait(env, start, last) + s.deployTimeout
    ensures Going(env, s, start, delta, last + 1) && last < limit
  {
    var poll, next := env(last), Next(env, last);
    assert next == env(last + 1);
    StillEarly(last, limit, s.pollInterval, start, poll.before, Horizon(s, start, delta) + delta);
  }

  // ----- what each poll decides, without any state -----

  /** The polls alone settle when `_wait_ready` ends and how: a workload that is gone, a GPU awaited too long, pending
      for another reason past the deadline, serving, restarting too often, past the deadline. The deadline counts from
      the last GPU wait. */
  function Verdict(env: nat -> Poll, s: Settings, start: real, i: nat): Option<Outcome> {
    Judge(env(i), s, start, LastWait(env, start, i) + s.deployTimeout)
  }

  function Judge(p: Poll, s: Settings, start: real, deadline: real): Option<Outcome> {
    if !p.status.exists_ then Some(Disappeared)
    else if p.status.gpuPending then (if p.before > start + s.gpuWaitMax then Some(NoGpu) else None)
    else if p.status.otherPending && p.before > deadline then Some(StillPending)
    else if Serves(p) then Some(Serving)
    else if p.status.restarts > s.maxRestarts then Some(Crashing)
    else if p.after > deadline then Some(TimedOut)
    else None
  }

  ghost predicate NoVerdict(env: nat -> Poll, s: Settings, start: real, n: nat) {
    forall i :: 0 <= i < n ==> Verdict(env, s, start, i).None?
  }

  lemma AnotherPoll(env: nat -> Poll, s: Settings, start: real, n: nat)
    requires NoVerdict(env, s, start, n) && Verdict(env, s, start, n).None?
    ensures NoVerdict(env, s, start, n + 1)
  {
  }

  predicate AnyLoaded(heartbeats: seq<bool>) { exists i :: 0 <= i < |heartbeats| && heartbeats[i] }

  /** A running worker has sent no heartbeat for a whole grace period, since the start and since every GPU wait. */
  ghost predicate TrustDue(env: nat -> Poll, s: Settings, start: real, i: nat) {
    && env(i).heartbeats == [] && env(i).status.workerReplicas > 0 && !env(i).status.gpuPending
    && env(i).after - start >= s.heartbeatGrace
    && forall j :: 0 <= j < i && env(j).status.gpuPending ==> env(i).after - env(j).after >= s.heartbeatGrace
  }

  /** The poll comes after the deadline, counted from the start and from every GPU wait, its own included. */
  ghost predicate Overdue(env: nat -> Poll, s: Settings, start: real, i: nat) {
    && env(i).after > start + s.deployTimeout
    && forall j :: 0 <= j <= i && env(j).status.gpuPending ==> env(i).after > env(j).after + s.deployTimeout
  }

  predicate NoGpuDue(env: nat -> Poll, s: Settings, start: real, i: nat) {
    env(i).status.gpuPending && env(i).before > start + s.gpuWaitMax
  }

  /** The polls alone settle when `_wait_worker_ready` ends. */
  ghost predicate WorkerDecided(env: nat -> Poll, s: Settings, start: real, i: nat) {
    || AnyLoaded(env(i).heartbeats) || NoGpuDue(env, s, start, i)
    || TrustDue(env, s, start, i) || Overdue(env, s, start, i)
  }

  /** The last GPU wait is the latest of the start and all GPU waits. */
  lemma {:induction false} LastWaitIsLatest(env: nat -> Poll, start: real, interval: real, delta: real, n: nat)
    requires WellTimed(env, start, interval, delta)
    ensures start <= LastWait(env, start, n)
    ensures forall i :: 0 <= i < n && env(i).status.gpuPending ==> env(i).after <= LastWait(env, start, n)
    ensures LastWait(env, start, n) == start ||
      exists i :: 0 <= i < n && env(i).status.gpuPending && env(i).after == LastWait(env, start, n)
    ensures n > 0 ==> LastWait(env, start, n) <= env(n - 1).after
    decreases n
  {
    if n > 0 {
      LastWaitIsLatest(env, start, interval, delta, n - 1);
      if n > 1 { assert Next(env, n - 2) == env(n - 1); }
    }
  }

  /** `_wait_ready`. `writes` are the states it reports on the way: true for waiting-for-GPU, false for deploying. */
  method WaitReady(env: nat -> Poll, s: Settings, start: real, ghost delta: real)
    returns (outcome: Outcome, last: nat, writes: seq<bool>)
    requires WellTimed(env, start, s.pollInterval, delta)
    ensures Verdict(env, s, start, last) == Some(outcome)
    ensures NoVerdict(env, s, start, last)
    ensures InTime(env, s, start, delta, last)
    ensures Means(env, s, start, last, outcome)
    ensures Alternate(writes) && (outcome.Serving? ==> !ShowsWaiting(writes))
    ensures ShowsWaiting(writes) <==>
      && Awaits(env, last)
      && (outcome.Disappeared? || outcome.NoGpu? || outcome.StillPending? || !env(last).status.ready)
  {
    var deadline := start + s.deployTimeout;
    var gpuDeadline := start + s.gpuWaitMax;
    var reported := false;
    last, writes := 0, [];
    ghost var limit := EnoughPolls(Horizon(s, start, delta) + delta - start, s.pollInterval);
    while true
      invariant Going(env, s, start, delta, last) && deadline == LastWait(env, start, last) + s.deployTimeout
      invariant NoVerdict(env, s, start, last)
      invariant Reports(env, last, writes, reported)
      decreases limit - last
    {
      var poll := env(last);
      if !poll.status.exists_ {
        outcome := Disappeared;
        break;
      }
      if poll.status.gpuPending {
        if poll.before > gpuDeadline {
          outcome := NoGpu;
          break;
        }
        ReportPoll(env, last, writes, reported);
        if !reported {
          reported := true;
          writes := writes + [true];
        }
        deadline := poll.after + s.deployTimeout;
      } else {
        ReportPoll(env, last, writes, reported);
        if poll.status.otherPending && poll.before > deadline {
          outcome := StillPending;
          break;
        } else if poll.status.ready {
          if reported {
            writes := writes + [false];
            reported := false;
          }
          if poll.health.ok && poll.health.modelLoaded != Some(false) {
            outcome := Serving;
            break;
          }
        }
        if poll.status.restarts > s.maxRestarts {
          outcome := Crashing;
          break;
        }
        if poll.after > deadline {
          outcome := TimedOut;
          break;
        }
      }
      AnotherPoll(env, s, start, last);
      GoOn(env, s, start, delta, last, limit);
      last := last + 1;
    }
    VerdictMeans(env, s, start, delta, last, outcome);
  }

  /** The loop ends within the GPU wait and the deploy timeout of its start, and within the deploy timeout of its last
      GPU wait. */
  ghost predicate InTime(env: nat -> Poll, s: Settings, start: real, delta: real, last: nat) {
    && env(last).after <= Horizon(s, start, delta) + 2.0 * delta
    && env(last).after <= LastWait(env, start, last) + Positive(s.deployTimeout) + 2.0 * delta
  }

  /** What each outcome says of the polls. */
  ghost predicate Means(env: nat -> Poll, s: Settings, start: real, last: nat, outcome: Outcome) {
    && outcome != Trusted
    && Undecided(env, s, last) && (Serves(env(last)) ==> outcome.Serving? || outcome.StillPending?)
    && (outcome.Serving? ==> Serves(env(last)))
    && (outcome.Disappeared? <==> !env(last).status.exists_)
    && (outcome.NoGpu? <==> env(last).status.exists_ && env(last).status.gpuPending)
    && (outcome.NoGpu? ==> env(last).before > start + s.gpuWaitMax)
    && (outcome.Crashing? ==> env(last).status.restarts > s.maxRestarts)
    && (outcome.TimedOut? || outcome.StillPending? ==>
          && !env(last).status.gpuPending && env(last).after > start + s.deployTimeout
          && Patient(env, s, start, env(last).after, last))
  }

  lemma VerdictMeans(env: nat -> Poll, s: Settings, start: real, delta: real, last: nat, outcome: Outcome)
    requires WellTimed(env, start, s.pollInterval, delta) && Going(env, s, start, delta, last)
    requires NoVerdict(env, s, start, last) && Verdict(env, s, start, last) == Some(outcome)
    ensures Means(env, s, start, last, outcome) && InTime(env, s, start, delta, last)
  {
    forall i | 0 <= i < last
      ensures env(i).status.exists_ && !Serves(env(i))
      ensures env(i).status.gpuPending || env(i).status.restarts <= s.maxRestarts
      ensures env(i).status.gpuPending ==> env(i).before <= start + s.gpuWaitMax
    {
      assert Verdict(env, s, start, i).None?;
    }
    LastWaitIsLatest(env, start, s.pollInterval, delta, last);
    assert env(last).before <= env(last).after;
  }

  /** Among the first `n` polls, a GPU wait has come and no ready poll without one after it. */
  predicate Awaits(env: nat -> Poll, n: nat) {
    if n == 0 then false
    else if env(n - 1).status.gpuPending then true
    else Awaits(env, n - 1) && !env(n - 1).status.ready
  }

  ghost predicate Reports(env: nat -> Poll, n: nat, writes: seq<bool>, reported: bool) {
    Alternate(writes) && (reported <==> ShowsWaiting(writes)) && (reported <==> Awaits(env, n))
  }

  /** What is reported at the next poll. */
  lemma ReportPoll(env: nat -> Poll, n: nat, writes: seq<bool>, reported: bool)
    requires Reports(env, n, writes, reported)
    ensures var p := env(n).status;
      if p.gpuPending then Reports(env, n + 1, if reported then writes else writes + [true], true)
      else if p.ready then Reports(env, n + 1, if reported then writes + [false] else writes, false)
      else Reports(env, n + 1, writes, reported)
  {
  }

  /** `_wait_worker_ready`. */
  method WaitWorkerReady(env: nat -> Poll, s: Settings, start: real, ghost delta: real)
    returns (outcome: Outcome, last: nat)
    requires WellTimed(env, start, s.pollInterval, delta)
    ensures forall i :: 0 <= i < last ==> !WorkerDecided(env, s, start, i)
    ensures outcome.Serving? <==> exists i :: 0 <= i < |env(last).heartbeats| && env(last).heartbeats[i]
    ensures outcome.NoGpu? <==> !AnyLoaded(env(last).heartbeats) && NoGpuDue(env, s, start, last)
    ensures outcome.Trusted? <==> TrustDue(env, s, start, last)
    ensures outcome.TimedOut? <==>
      && !AnyLoaded(env(last).heartbeats) && !NoGpuDue(env, s, start, last) && !TrustDue(env, s, start, last)
      && Overdue(env, s, start, last)
    ensures outcome.Serving? || outcome.Trusted? || outcome.NoGpu? || outcome.TimedOut?
    ensures InTime(env, s, start, delta, last)
    ensures outcome.TimedOut? && s.deployTimeout >= 0.0 ==> !env(last).status.gpuPending
  {
    var started := start;
    var deadline := start + s.deployTimeout;
    var gpuDeadline := start + s.gpuWaitMax;
    last := 0;
    ghost var limit := EnoughPolls(Horizon(s, start, delta) + delta - start, s.pollInterval);
    while true
      invariant Going(env, s, start, delta, last)
      invariant started == LastWait(env, start, last) && deadline == started + s.deployTimeout
      invariant forall i :: 0 <= i < last ==> !WorkerDecided(env, s, start, i)
      decreases limit - last
    {
      LastWaitIsLatest(env, start, s.pollInterval, delta, last);
      var poll := env(last);
      if AnyLoaded(poll.heartbeats) { return Serving, last; }
      if poll.status.gpuPending {
        if poll.before > gpuDeadline { return NoGpu, last; }
        started := poll.after;
        deadline := poll.after + s.deployTimeout;
      } else if poll.heartbeats == [] && poll.status.workerReplicas > 0 && poll.after - started >= s.heartbeatGrace {
        return Trusted, last;
      }
      if poll.after > deadline { return TimedOut, last; }
      GoOn(env, s, start, delta, last, limit);
      last := last + 1;
    }
  }
}
