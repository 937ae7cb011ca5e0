/** The queue scaler's idle timer (app/lifecycle/queue_scaler.py). What a tick sees of each queue model, and what the
    deployer answers to a start or a stop, are parameters. */
module QueueScaler {

  datatype Answer = Accepted | Refused | Raised

  /** One examined model; only ready and sleeping queue models are. */
  datatype Seen = Seen(
    name: string,
    ready: bool,          // else it is sleeping
    idleTimeout: real,
    wakeFailed: bool,     // its state detail starts with "wake failed"
    updatedAt: real,
    work: nat,            // pending plus in-flight jobs
    answer: Answer)       // what `begin_wake` or `sleep` comes to

  datatype Action = Started(name: string) | Stopped(name: string)

  /** An examination, for the record. */
  datatype Look = Look(name: string, time: real, ready: bool, work: nat)

  /** `name` was seen ready and without work at index `k`, and no examination since has seen work. */
  ghost predicate QuietSince(log: seq<Look>, name: string, k: nat, since: real) {
    && k < |log| && log[k].name == name && log[k].ready && log[k].time == since
    && (forall j :: k <= j < |log| && log[j].name == name ==> log[j].work == 0)
  }

  /** Why an action at `now` is right, given every examination so far (the last one being its own). */
  ghost predicate Justified(a: Action, m: Seen, log: seq<Look>, now: real, retryAfter: real) {
    && a.name == m.name && m.answer.Accepted?
    && match a
       case Started(_) => m.work > 0 && !m.ready && (m.wakeFailed ==> now - m.updatedAt >= retryAfter)
       case Stopped(_) =>
         && m.ready && m.idleTimeout != 0.0
         && exists k, since :: QuietSince(log, m.name, k, since) && now - since > m.idleTimeout
  }

  lemma QuietGrows(log: seq<Look>, name: string, k: nat, since: real, look: Look)
    requires QuietSince(log, name, k, since) && (look.name == name ==> look.work == 0)
    ensures QuietSince(log + [look], name, k, since)
  {
  }

  class QueueScaler {
    const retryAfter: real
    var emptySince: map<string, real>

    ghost var log: seq<Look>              // every examination so far
    ghost var start: map<string, nat>     // the examination that started each timer
    ghost var acted: seq<Action>          // every start and stop the deployer has accepted

    ghost predicate Valid()
      reads this
    {
      && emptySince.Keys == start.Keys
      && (forall n :: n in emptySince ==> QuietSince(log, n, start[n], emptySince[n]))
    }

    constructor (retryAfter: real)
      ensures Valid() && emptySince == map[] && log == [] && acted == [] && this.retryAfter == retryAfter
    {
      this.retryAfter := retryAfter;
      emptySince, log, start, acted := map[], [], map[], [];
    }

    /** One model of a tick. At most one action, and only a justified one; a timer that has run out on an idle,
        ready model always asks the deployer to stop it. If the deployer raises, the timer runs on. */
    method Examine(m: Seen, now: real) returns (actions: seq<Action>, raised: bool)
      requires Valid()
      modifies this`emptySince, this`log, this`start, this`acted
      ensures Valid() && log == old(log) + [Look(m.name, now, m.ready, m.work)] && acted == old(acted) + actions
      ensures |actions| <= 1 && forall a :: a in actions ==> Justified(a, m, log, now, retryAfter)
      ensures m.work > 0 ==>
        var asks := !m.ready && (m.wakeFailed ==> now - m.updatedAt >= retryAfter);
        && emptySince == old(emptySince) - {m.name} && raised == (asks && m.answer.Raised?)
        && actions == if asks && m.answer.Accepted? then [Started(m.name)] else []
      ensures m.work == 0 && !m.ready ==> emptySince == old(emptySince) && actions == [] && !raised
      ensures m.work == 0 && m.ready ==>
        var since := if m.name in old(emptySince) then old(emptySince)[m.name] else now;
        var asks := m.idleTimeout != 0.0 && now - since > m.idleTimeout;
        var stops := asks && m.answer.Accepted?;
        && raised == (asks && m.answer.Raised?)
        && actions == (if stops then [Stopped(m.name)] else [])
        && emptySince == if stops then old(emptySince) - {m.name} else old(emptySince)[m.name := since]
    {
      actions, raised := [], false;
      Note(m, now);
      if m.work > 0 {
        actions, raised := SeeWork(m, now);
      } else if m.ready {
        actions, raised := SeeIdle(m, now);
      }
      acted := acted + actions;
    }

    /** The record of an examination. A timer of a model with work does not survive it, and is not yet stopped. */
    ghost method Note(m: Seen, now: real)
      requires Valid()
      modifies this`log
      ensures log == old(log) + [Look(m.name, now, m.ready, m.work)]
      ensures forall n :: n in emptySince && (n != m.name || m.work == 0) ==>
        QuietSince(log, n, start[n], emptySince[n])
    {
      var look := Look(m.name, now, m.ready, m.work);
      forall n | n in emptySince && (n != m.name || m.work == 0)
        ensures QuietSince(log + [look], n, start[n], emptySince[n])
      {
        QuietGrows(log, n, start[n], emptySince[n], look);
      }
      log := log + [look];
    }

    method SeeWork(m: Seen, now: real) returns (actions: seq<Action>, raised: bool)
      requires emptySince.Keys == start.Keys && m.work > 0
      requires forall n :: n in emptySince && n != m.name ==> QuietSince(log, n, start[n], emptySince[n])
      modifies this`emptySince, this`start
      ensures Valid() && emptySince == old(emptySince) - {m.name}
      ensures var asks := !m.ready && (m.wakeFailed ==> now - m.updatedAt >= retryAfter);
        && raised == (asks && m.answer.Raised?)
        && actions == if asks && m.answer.Accepted? then [Started(m.name)] else []
    {
      emptySince := emptySince - {m.name};
      start := start - {m.name};
      var recentlyFailed := m.wakeFailed && now - m.updatedAt < retryAfter;
      var asks := !m.ready && !recentlyFailed;
      actions := if asks && m.answer.Accepted? then [Started(m.name)] else [];
      raised := asks && m.answer.Raised?;
    }

    method SeeIdle(m: Seen, now: real) returns (actions: seq<Action>, raised: bool)
      requires Valid() && m.work == 0 && m.ready
      requires log != [] && log[|log| - 1] == Look(m.name, now, true, 0)
      modifies this`emptySince, this`start
      ensures Valid()
      ensures forall a :: a in actions ==> Justified(a, m, log, now, retryAfter)
      ensures var since := if m.name in old(emptySince) then old(emptySince)[m.name] else now;
        var asks := m.idleTimeout != 0.0 && now - since > m.idleTimeout;
        var stops := asks && m.answer.Accepted?;
        && raised == (asks && m.answer.Raised?)
        && actions == (if stops then [Stopped(m.name)] else [])
        && emptySince == if stops then old(emptySince) - {m.name} else old(emptySince)[m.name := since]
    {
      if m.name !in emptySince {
        emptySince := emptySince[m.name := now];
        start := start[m.name := |log| - 1];
      }
      var since := emptySince[m.name];
      assert QuietSince(log, m.name, start[m.name], since);
      var asks := m.idleTimeout != 0.0 && now - since > m.idleTimeout;
      actions, raised := [], asks && m.answer.Raised?;
      if asks && m.answer.Accepted? {
        emptySince := emptySince - {m.name};
        start := start - {m.name};
        actions := [Stopped(m.name)];
      }
    }

    /** The models of a tick, at one clock reading, up to the first one for which the deployer raises: that ends the
        tick, with `done` models examined. */
    method Tick(models: seq<Seen>, now: real)
      returns (actions: seq<Action>, raised: bool, ghost why: seq<nat>, ghost done: nat)
      requires Valid()
      modifies this`emptySince, this`log, this`start, this`acted
      ensures acted == old(acted) + actions
      ensures done <= |models| && (!raised ==> done == |models|)
      ensures raised ==> 0 < done && models[done - 1].answer.Raised?
      ensures Valid() && |log| == |old(log)| + done && log[..|old(log)|] == old(log)
      ensures forall i :: 0 <= i < done ==>
        log[|old(log)| + i] == Look(models[i].name, now, models[i].ready, models[i].work)
      ensures |why| == |actions|
      ensures forall i :: 0 <= i < |actions| ==>
        why[i] < done && Justified(actions[i], models[why[i]], log[..|old(log)| + why[i] + 1], now, retryAfter)
    {
      actions, raised, why, done := [], false, [], 0;
      for i := 0 to |models|
        invariant Valid() && done == i && !raised && |log| == |old(log)| + i && log[..|old(log)|] == old(log)
        invariant forall j :: 0 <= j < i ==>
          log[|old(log)| + j] == Look(models[j].name, now, models[j].ready, models[j].work)
        invariant |why| == |actions| && acted == old(acted) + actions
        invariant forall j :: 0 <= j < |actions| ==>
          why[j] < i && Justified(actions[j], models[why[j]], log[..|old(log)| + why[j] + 1], now, retryAfter)
      {
        ghost var before := log;
        var one;
        one, raised := Examine(models[i], now);
        assert forall n :: 0 <= n <= |before| ==> log[..n] == before[..n];
        assert log[..|log|] == log;
        actions := actions + one;
        why := why + (if one == [] then [] else [i]);
        done := i + 1;
        if raised { return; }
      }
    }
  }
}
