/** Revocation against the reconciler (app/keys/api.py, app/redis_sync/keys.py, app/lifecycle/reconciler.py):
    passes that write back a snapshot of the keys interleave, step by step, with requests that revoke them. */
module KeyRace {
  import opened Options

  type KeyId = string

  datatype KeyRow = KeyRow(expires: bool, revoked: bool)

  /** One reconciler pass over the keys. */
  datatype Pass =
    | Publishing(snap: map<KeyId, KeyRow>, todo: set<KeyId>)    // `rebuild_keys`: one publish per listed key
    | Sweeping(snap: map<KeyId, KeyRow>)                        // its scan, which deletes what was not listed as valid
    | Rechecking(snap: map<KeyId, KeyRow>, todo: set<KeyId>, drop: Option<KeyId>)  // `drop_revoked`

  /** One DELETE /v1/keys/{id} request. */
  datatype Revoke =
    | Flushed(key: KeyId)    // the row is updated but not committed
    | Deleted(key: KeyId)    // the first Redis delete is done
    | Committed(key: KeyId)  // the second is still to come

  datatype Sys = Sys(
    db: map<KeyId, KeyRow>,       // committed rows
    redis: set<KeyId>,            // ids under `key:*`
    passes: map<nat, Pass>,
    revokes: map<nat, Revoke>,
    leaked: set<KeyId>)           // present since a second delete failed or a pass was aborted, and not deleted since

  datatype Event =
    | CreatePublish(k: KeyId)
    | CreateCommit(k: KeyId, row: KeyRow)
    | PassStart(p: nat)
    | Publish(p: nat, k: KeyId, expired: bool)
    | SweepStart(p: nat)
    | SweepDelete(p: nat, k: KeyId)
    | RecheckStart(p: nat)
    | Recheck(p: nat, k: KeyId, expired: bool)
    | Drop(p: nat)
    | PassEnd(p: nat)
    | PassAbort(p: nat)
    | RevokeStart(r: nat, k: KeyId)
    | FirstDelete(r: nat)
    | RevokeAbandon(r: nat)
    | RevokeCommit(r: nat)
    | SecondDelete(r: nat, ok: bool)

  predicate Enabled(s: Sys, e: Event) {
    match e
    case CreatePublish(k) => k !in s.db
    case CreateCommit(k, row) => k !in s.db && !row.revoked
    case PassStart(p) => p !in s.passes
    case Publish(p, k, expired) =>
      p in s.passes && s.passes[p].Publishing? && k in s.passes[p].todo && k in s.passes[p].snap
      && (expired ==> s.passes[p].snap[k].expires)
    case SweepStart(p) => p in s.passes && s.passes[p].Publishing? && s.passes[p].todo == {}
    case SweepDelete(p, k) =>
      p in s.passes && s.passes[p].Sweeping?
      && (k in s.passes[p].snap ==> s.passes[p].snap[k].revoked || s.passes[p].snap[k].expires)
    case RecheckStart(p) => p in s.passes && s.passes[p].Sweeping?
    case Recheck(p, k, expired) =>
      p in s.passes && s.passes[p].Rechecking? && s.passes[p].drop.None? && k in s.passes[p].todo && k in s.db
      && (expired ==> s.db[k].expires)
    case Drop(p) => p in s.passes && s.passes[p].Rechecking? && s.passes[p].drop.Some?
    case PassEnd(p) => p in s.passes && s.passes[p].Rechecking? && s.passes[p].drop.None? && s.passes[p].todo == {}
    case PassAbort(p) => p in s.passes
    case RevokeStart(r, k) => r !in s.revokes && k in s.db
    case FirstDelete(r) => r in s.revokes && s.revokes[r].Flushed?
    case RevokeAbandon(r) => r in s.revokes && !s.revokes[r].Committed?
    case RevokeCommit(r) => r in s.revokes && s.revokes[r].Deleted? && s.revokes[r].key in s.db
    case SecondDelete(r, _) => r in s.revokes && s.revokes[r].Committed?
  }

  function Delete(s: Sys, k: KeyId): Sys { s.(redis := s.redis - {k}, leaked := s.leaked - {k}) }

  function SetPass(s: Sys, p: nat, pass: Pass): Sys { s.(passes := s.passes[p := pass]) }

  /** `pass` may still have to correct what its snapshot said about `k`. */
  predicate Stale(pass: Pass, k: KeyId) {
    k in pass.snap && !pass.snap[k].revoked && (pass.Rechecking? ==> k in pass.todo)
  }

  function Do(s: Sys, e: Event): Sys
    requires Enabled(s, e)
  {
    match e
    case CreatePublish(k) => s.(redis := s.redis + {k})
    case CreateCommit(k, row) => s.(db := s.db[k := row])
    case PassStart(p) => SetPass(s, p, Publishing(s.db, s.db.Keys))
    case Publish(p, k, expired) =>
      var pass := s.passes[p];
      var s' := SetPass(s, p, Publishing(pass.snap, pass.todo - {k}));
      if pass.snap[k].revoked || expired then Delete(s', k) else s'.(redis := s.redis + {k})
    case SweepStart(p) => SetPass(s, p, Sweeping(s.passes[p].snap))
    case SweepDelete(p, k) => Delete(s, k)
    case RecheckStart(p) => SetPass(s, p, Rechecking(s.passes[p].snap, s.db.Keys, None))
    case Recheck(p, k, expired) =>
      var pass := s.passes[p];
      if s.db[k].revoked || expired then SetPass(s, p, Rechecking(pass.snap, pass.todo, Some(k)))
      else SetPass(s, p, Rechecking(pass.snap, pass.todo - {k}, None))
    case Drop(p) =>
      var pass := s.passes[p];
      Delete(SetPass(s, p, Rechecking(pass.snap, pass.todo - {pass.drop.value}, None)), pass.drop.value)
    case PassEnd(p) => s.(passes := s.passes - {p})
    case PassAbort(p) =>
      s.(passes := s.passes - {p}, leaked := s.leaked + (set k | k in s.redis && Stale(s.passes[p], k)))
    case RevokeStart(r, k) => s.(revokes := s.revokes[r := Flushed(k)])
    case FirstDelete(r) => Delete(s.(revokes := s.revokes[r := Deleted(s.revokes[r].key)]), s.revokes[r].key)
    case RevokeAbandon(r) => s.(revokes := s.revokes - {r})
    case RevokeCommit(r) =>
      var k := s.revokes[r].key;
      s.(db := s.db[k := s.db[k].(revoked := true)], revokes := s.revokes[r := Committed(k)])
    case SecondDelete(r, ok) =>
      var k := s.revokes[r].key;
      var s' := s.(revokes := s.revokes - {r});
      if ok then Delete(s', k) else s'.(leaked := s'.leaked + (if k in s.redis then {k} else {}))
  }

  // ----- what every run keeps -----

  /** A revoked key may still be readable only for one of these reasons. */
  ghost predicate Excused(s: Sys, k: KeyId) {
    || (exists r :: r in s.revokes && s.revokes[r] == Committed(k))
    || (exists p :: p in s.passes && Stale(s.passes[p], k))
    || k in s.leaked
  }

  ghost predicate PassOk(s: Sys, pass: Pass) {
    && pass.snap.Keys <= s.db.Keys
    && (pass.Rechecking? && pass.drop.Some? ==> pass.drop.value in pass.todo)
    && (forall k :: k in pass.snap && pass.snap[k].revoked ==> s.db[k].revoked)
  }

  ghost predicate Inv(s: Sys) {
    && (forall k :: k in s.db && s.db[k].revoked && k in s.redis ==> Excused(s, k))
    && (forall p :: p in s.passes ==> PassOk(s, s.passes[p]))
    && (forall r :: r in s.revokes ==> s.revokes[r].key in s.db)
    && s.leaked <= s.redis
  }

  lemma StepKeepsInv(s: Sys, e: Event)
    requires Inv(s) && Enabled(s, e)
    ensures Inv(Do(s, e))
  {
    var s' := Do(s, e);
    forall k | k in s'.db && s'.db[k].revoked && k in s'.redis ensures Excused(s', k) {
      StepKeepsExcuse(s, e, k);
    }
  }

  lemma StepKeepsExcuse(s: Sys, e: Event, k: KeyId)
    requires Inv(s) && Enabled(s, e)
    requires k in Do(s, e).db && Do(s, e).db[k].revoked && k in Do(s, e).redis
    ensures Excused(Do(s, e), k)
  {
    var s' := Do(s, e);
    if e.Publish? && e.k == k && !s.passes[e.p].snap[k].revoked {
      assert Stale(s'.passes[e.p], k);
    } else if e.RevokeCommit? && s.revokes[e.r].key == k {
      assert s'.revokes[e.r] == Committed(k);
    } else {
      assert Excused(s, k);
      if r :| r in s.revokes && s.revokes[r] == Committed(k) {
        RevokeKeepsExcuse(s, e, k, r);
      } else if p :| p in s.passes && Stale(s.passes[p], k) {
        PassKeepsExcuse(s, e, k, p);
      }
    }
  }

  lemma RevokeKeepsExcuse(s: Sys, e: Event, k: KeyId, r: nat)
    requires Enabled(s, e) && r in s.revokes && s.revokes[r] == Committed(k) && k in Do(s, e).redis
    ensures Excused(Do(s, e), k)
  {
    if !(e.SecondDelete? && e.r == r) { assert Do(s, e).revokes[r] == Committed(k); }
  }

  lemma PassKeepsExcuse(s: Sys, e: Event, k: KeyId, p: nat)
    requires Inv(s) && Enabled(s, e) && p in s.passes && Stale(s.passes[p], k) && k in Do(s, e).redis
    requires k in s.redis && s.db[k].revoked
    ensures Excused(Do(s, e), k)
  {
    if p in Do(s, e).passes { assert Stale(Do(s, e).passes[p], k); }
  }

  // ----- runs -----

  ghost predicate IsRun(s: Sys, es: seq<Event>)
    decreases es
  {
    es == [] || (Enabled(s, es[0]) && IsRun(Do(s, es[0]), es[1..]))
  }

  ghost function After(s: Sys, es: seq<Event>): Sys
    requires IsRun(s, es)
    decreases es
  {
    if es == [] then s else After(Do(s, es[0]), es[1..])
  }

  /** Redis right after the start-up rebuild: every published key is valid. */
  ghost predicate Fresh(s: Sys) {
    && s.passes == map[] && s.revokes == map[] && s.leaked == {}
    && forall k :: k in s.db && s.db[k].revoked ==> k !in s.redis
  }

  /** No pass is aborted and no second delete fails. */
  predicate Faultless(es: seq<Event>) {
    forall e :: e in es ==> !e.PassAbort? && !(e.SecondDelete? && !e.ok)
  }

  lemma {:induction false} RunKeepsInv(s: Sys, es: seq<Event>)
    requires Inv(s) && IsRun(s, es)
    ensures Inv(After(s, es))
    ensures Faultless(es) && s.leaked == {} ==> After(s, es).leaked == {}
    decreases es
  {
    if es != [] {
      StepKeepsInv(s, es[0]);
      RunKeepsInv(Do(s, es[0]), es[1..]);
    }
  }

  /** In every interleaving, outside of two windows (one of the key's revocations is between its commit and its second
      delete; a pass is between its snapshot and its re-check of that very key) a revoked key is readable if and only
      if a fault (a failed second delete, an aborted pass) has left it there and nothing has deleted it since. Without
      faults it is gone. */
  lemma RevokedIsUnreadable(s: Sys, es: seq<Event>, k: KeyId)
    requires Fresh(s) && IsRun(s, es)
    requires var s' := After(s, es);
      && k in s'.db && s'.db[k].revoked
      && (forall r :: r in s'.revokes ==> s'.revokes[r] != Committed(k))
      && (forall p :: p in s'.passes ==> !Stale(s'.passes[p], k))
    ensures k in After(s, es).redis <==> k in After(s, es).leaked
    ensures Faultless(es) ==> k !in After(s, es).redis
  {
    assert Inv(s);
    RunKeepsInv(s, es);
  }

  /** A revocation is never undone: once committed it stays. */
  lemma {:induction false} RevokedForever(s: Sys, es: seq<Event>, k: KeyId)
    requires IsRun(s, es) && k in s.db && s.db[k].revoked
    ensures k in After(s, es).db && After(s, es).db[k].revoked
    decreases es
  {
    if es != [] { RevokedForever(Do(s, es[0]), es[1..], k); }
  }

  /** The pass took its snapshot when the key was revoked already (or did not list it). */
  predicate Young(s: Sys, p: nat, k: KeyId) {
    p in s.passes && k in s.passes[p].snap ==> s.passes[p].snap[k].revoked
  }

  /** A pass that listed the key before it was revoked writes it back. */
  predicate WritesBack(s: Sys, e: Event, k: KeyId)
    requires Enabled(s, e)
  {
    e.Publish? && e.k == k && !e.expired && !s.passes[e.p].snap[k].revoked
  }

  ghost predicate WrittenBack(s: Sys, es: seq<Event>, k: KeyId)
    requires IsRun(s, es)
    decreases es
  {
    es != [] && (WritesBack(s, es[0], k) || WrittenBack(Do(s, es[0]), es[1..], k))
  }

  /** The same, from step `n` of the run on. */
  ghost predicate WrittenBackFrom(s: Sys, es: seq<Event>, n: nat, k: KeyId)
    requires IsRun(s, es) && n <= |es|
    decreases es
  {
    if n == 0 then WrittenBack(s, es, k) else WrittenBackFrom(Do(s, es[0]), es[1..], n - 1, k)
  }

  /** A revoked key that is gone stays gone, unless such a pass writes it back. */
  lemma {:induction false} StaysGone(s: Sys, es: seq<Event>, k: KeyId)
    requires IsRun(s, es) && k in s.db && s.db[k].revoked && k !in s.redis && !WrittenBack(s, es, k)
    ensures k !in After(s, es).redis
    decreases es
  {
    if es != [] { StaysGone(Do(s, es[0]), es[1..], k); }
  }

  /** Whatever a fault has left: once a pass `p` that began after the revocation has published its snapshot's word on
      the key, amid anything else, the key is gone, unless a pass that began before the revocation writes it back
      later on. */
  lemma {:induction false} NextPassHeals(s: Sys, es: seq<Event>, p: nat, k: KeyId, j: nat)
    requires IsRun(s, es) && k in s.db && s.db[k].revoked && Young(s, p, k)
    requires j < |es| && es[j].Publish? && es[j].p == p && es[j].k == k
    requires !WrittenBackFrom(s, es, j + 1, k)
    ensures k !in After(s, es).redis
    decreases es
  {
    if j == 0 {
      StaysGone(Do(s, es[0]), es[1..], k);
    } else {
      NextPassHeals(Do(s, es[0]), es[1..], p, k, j - 1);
    }
  }

  ghost predicate SomePassOld(s: Sys, k: KeyId) { exists q :: q in s.passes && !Young(s, q, k) }

  /** Only a pass that was under way when the key was revoked can do that. */
  lemma {:induction false} OnlyOldPassesWriteBack(s: Sys, es: seq<Event>, k: KeyId)
    requires IsRun(s, es) && k in s.db && s.db[k].revoked && WrittenBack(s, es, k)
    ensures SomePassOld(s, k)
    decreases es
  {
    if WritesBack(s, es[0], k) {
      assert !Young(s, es[0].p, k);
    } else {
      OnlyOldPassesWriteBack(Do(s, es[0]), es[1..], k);
      var q :| q in Do(s, es[0]).passes && !Young(Do(s, es[0]), q, k);
      assert q in s.passes && !Young(s, q, k);
    }
  }

  // ----- a pass by itself -----

  lemma Prepend(s: Sys, e: Event, es: seq<Event>)
    requires Enabled(s, e) && IsRun(Do(s, e), es)
    ensures IsRun(s, [e] + es) && After(s, [e] + es) == After(Do(s, e), es)
  {
    assert ([e] + es)[1..] == es;
  }

  lemma {:induction false} Joins(s: Sys, es: seq<Event>, more: seq<Event>)
    requires IsRun(s, es) && IsRun(After(s, es), more)
    ensures IsRun(s, es + more) && After(s, es + more) == After(After(s, es), more)
    decreases es
  {
    if es == [] {
      assert es + more == more;
    } else {
      assert (es + more)[1..] == es[1..] + more;
      Joins(Do(s, es[0]), es[1..], more);
    }
  }

  /** The pass has come to `pass`, `redis` is what is left, and nothing else has changed. */
  ghost predicate Turned(s: Sys, s': Sys, p: nat, pass: Pass, redis: set<KeyId>) {
    s'.db == s.db && s'.revokes == s.revokes && s'.passes == s.passes[p := pass] && s'.redis == redis
  }

  function Valid(rows: map<KeyId, KeyRow>): set<KeyId> { set k | k in rows && !rows[k].revoked }

  lemma {:induction false} Publishes(s: Sys, p: nat) returns (es: seq<Event>)
    requires p in s.passes && s.passes[p].Publishing? && s.passes[p].todo <= s.passes[p].snap.Keys
    ensures IsRun(s, es)
    ensures var pass := s.passes[p];
      Turned(s, After(s, es), p, Publishing(pass.snap, {}), (s.redis - pass.todo) + (pass.todo * Valid(pass.snap)))
    decreases s.passes[p].todo
  {
    es := [];
    var pass := s.passes[p];
    if pass.todo == {} {
      assert s.passes == s.passes[p := pass];
    } else {
      var k :| k in pass.todo;
      var s' := Do(s, Publish(p, k, false));
      assert s'.passes[p].todo == pass.todo - {k};
      var rest := Publishes(s', p);
      Prepend(s, Publish(p, k, false), rest);
      es := [Publish(p, k, false)] + rest;
    }
  }

  lemma {:induction false} Scans(s: Sys, p: nat) returns (es: seq<Event>)
    requires p in s.passes && s.passes[p].Sweeping?
    ensures IsRun(s, es) && Turned(s, After(s, es), p, s.passes[p], s.redis * Valid(s.passes[p].snap))
    decreases s.redis
  {
    es := [];
    assert s.passes == s.passes[p := s.passes[p]];
    if k :| k in s.redis && k !in Valid(s.passes[p].snap) {
      var s' := Do(s, SweepDelete(p, k));
      var rest := Scans(s', p);
      Prepend(s, SweepDelete(p, k), rest);
      es := [SweepDelete(p, k)] + rest;
    }
  }

  lemma {:induction false} Rechecks(s: Sys, p: nat) returns (es: seq<Event>)
    requires p in s.passes && s.passes[p].Rechecking? && s.passes[p].drop.None? && s.passes[p].todo <= s.db.Keys
    ensures IsRun(s, es)
    ensures var pass := s.passes[p];
      Turned(s, After(s, es), p, Rechecking(pass.snap, {}, None), s.redis - (pass.todo - Valid(s.db)))
    decreases s.passes[p].todo
  {
    es := [];
    var pass := s.passes[p];
    if pass.todo == {} {
      assert s.passes == s.passes[p := pass];
    } else {
      var k :| k in pass.todo;
      var one := RecheckOne(s, p, k);
      var s' := After(s, one);
      assert s'.passes[p].todo == pass.todo - {k};
      var rest := Rechecks(s', p);
      Joins(s, one, rest);
      es := one + rest;
    }
  }

  lemma RecheckOne(s: Sys, p: nat, k: KeyId) returns (es: seq<Event>)
    requires p in s.passes && s.passes[p].Rechecking? && s.passes[p].drop.None? && k in s.passes[p].todo && k in s.db
    ensures IsRun(s, es)
    ensures var pass := s.passes[p];
      Turned(s, After(s, es), p, Rechecking(pass.snap, pass.todo - {k}, None),
             if s.db[k].revoked then s.redis - {k} else s.redis)
  {
    var s1 := Do(s, Recheck(p, k, false));
    if s.db[k].revoked {
      es := [Drop(p)];
      assert es[1..] == [];
      assert After(s1, es) == Do(s1, Drop(p));
    } else {
      es := [];
    }
    Prepend(s, Recheck(p, k, false), es);
    es := [Recheck(p, k, false)] + es;
  }

  /** From the end of its scan on. */
  lemma Finishes(s: Sys, p: nat) returns (es: seq<Event>)
    requires p in s.passes && s.passes[p].Sweeping?
    ensures IsRun(s, es)
    ensures var s' := After(s, es);
      && s'.db == s.db && s'.revokes == s.revokes && s'.passes == s.passes - {p}
      && s'.redis == s.redis - (s.db.Keys - Valid(s.db))
  {
    var s1 := Do(s, RecheckStart(p));
    var rechecking := Rechecks(s1, p);
    var s2 := After(s1, rechecking);
    var s3 := Do(s2, PassEnd(p));
    assert s3.passes == s.passes - {p};
    es := [PassEnd(p)];
    assert es[1..] == [] && After(s2, es) == s3;
    Joins(s1, rechecking, es);
    Prepend(s, RecheckStart(p), rechecking + es);
    es := [RecheckStart(p)] + (rechecking + es);
  }

  /** A pass that nothing disturbs, while no key expires, comes to its end and leaves exactly the valid keys. */
  lemma PassCompletes(s: Sys, p: nat) returns (es: seq<Event>)
    requires p !in s.passes
    ensures IsRun(s, es)
    ensures var s' := After(s, es);
      s'.db == s.db && s'.revokes == s.revokes && s'.passes == s.passes && s'.redis == Valid(s.db)
  {
    var s1 := Do(s, PassStart(p));
    var publishing := Publishes(s1, p);
    var s2 := After(s1, publishing);
    var s3 := Do(s2, SweepStart(p));
    var scanning := Scans(s3, p);
    var s4 := After(s3, scanning);
    es := Finishes(s4, p);
    assert s4.passes - {p} == s.passes && s4.redis - (s.db.Keys - Valid(s.db)) == Valid(s.db);
    Joins(s3, scanning, es);
    Prepend(s2, SweepStart(p), scanning + es);
    es := [SweepStart(p)] + (scanning + es);
    Joins(s1, publishing, es);
    Prepend(s, PassStart(p), publishing + es);
    es := [PassStart(p)] + (publishing + es);
  }

  /** A key found expired, when it is published or checked again, is deleted. */
  lemma ExpiredGoes(s: Sys, p: nat, k: KeyId)
    ensures Enabled(s, Publish(p, k, true)) ==> k !in Do(s, Publish(p, k, true)).redis
    ensures Enabled(s, Recheck(p, k, true)) ==>
      var s' := Do(s, Recheck(p, k, true));
      Enabled(s', Drop(p)) && k !in Do(s', Drop(p)).redis
  {
  }

  // ----- the order of a revocation -----

  /** A revocation is committed only after its first Redis delete has succeeded: an outage of Redis fails the request
      and leaves the key as it is. */
  lemma {:induction false} CommitFollowsDelete(s: Sys, es: seq<Event>, r: nat)
    requires IsRun(s, es) && (r in s.revokes ==> s.revokes[r].Flushed?)
    requires Enabled(After(s, es), RevokeCommit(r))
    ensures FirstDelete(r) in es
    decreases es
  {
    if es != [] && es[0] != FirstDelete(r) {
      CommitFollowsDelete(Do(s, es[0]), es[1..], r);
      assert FirstDelete(r) in es[1..];
    }
  }

  /** Giving a revocation up leaves no trace of it but the deleted entry, which the next pass restores. */
  lemma AbandonedLeavesValid(s: Sys, r: nat, k: KeyId)
    requires r !in s.revokes && k in s.db && !s.db[k].revoked
    ensures var s1 := Do(Do(s, RevokeStart(r, k)), FirstDelete(r));
      && Enabled(s1, RevokeAbandon(r))
      && Do(s1, RevokeAbandon(r)).revokes == s.revokes && Do(s1, RevokeAbandon(r)).db == s.db
  {
    var s1 := Do(Do(s, RevokeStart(r, k)), FirstDelete(r));
    assert Do(s1, RevokeAbandon(r)).revokes == s.revokes;
  }

  // ----- valid keys stay readable -----

  /** The pass has listed the key as it is, and has not found it expired. */
  predicate Lists(s: Sys, p: nat, k: KeyId) {
    p in s.passes ==>
      && k in s.passes[p].snap && !s.passes[p].snap[k].revoked && !s.passes[p].snap[k].expires
      && !(s.passes[p].Rechecking? && s.passes[p].drop == Some(k))
  }

  /** The key is valid, does not expire, nobody is revoking it, and every pass knows it. */
  ghost predicate Usable(s: Sys, k: KeyId) {
    && k in s.db && !s.db[k].revoked && !s.db[k].expires && k in s.redis
    && (forall r :: r in s.revokes ==> s.revokes[r].key != k)
    && (forall p :: p in s.passes ==> Lists(s, p, k))
  }

  predicate Revokes(e: Event, k: KeyId) { e.RevokeStart? && e.k == k }

  lemma StepKeepsUsable(s: Sys, e: Event, k: KeyId)
    requires Usable(s, k) && Enabled(s, e) && !Revokes(e, k)
    ensures Usable(Do(s, e), k)
  {
  }

  /** A key that does not expire stays readable, amid any passes and revocations of other keys, until someone begins to
      revoke it. */
  lemma {:induction false} ValidStaysReadable(s: Sys, es: seq<Event>, k: KeyId)
    requires IsRun(s, es) && Usable(s, k) && forall e :: e in es ==> !Revokes(e, k)
    ensures Usable(After(s, es), k)
    decreases es
  {
    if es != [] {
      StepKeepsUsable(s, es[0], k);
      ValidStaysReadable(Do(s, es[0]), es[1..], k);
    }
  }

  /** Creating a key makes it so, if no pass is under way. */
  lemma CreatedIsReadable(s: Sys, k: KeyId, row: KeyRow)
    requires k !in s.db && !row.revoked && !row.expires && s.passes == map[]
    requires forall r :: r in s.revokes ==> s.revokes[r].key != k
    ensures IsRun(s, [CreatePublish(k), CreateCommit(k, row)])
    ensures Usable(After(s, [CreatePublish(k), CreateCommit(k, row)]), k)
  {
    var s1 := Do(s, CreatePublish(k));
    assert [CreatePublish(k), CreateCommit(k, row)][1..] == [CreateCommit(k, row)];
    assert [CreateCommit(k, row)][1..] == [];
    assert After(s1, [CreateCommit(k, row)]) == Do(s1, CreateCommit(k, row));
  }

  /** The first delete alone is enough when no pass is under way: the key is gone before its revocation is committed,
      and stays gone though the second delete fails. */
  lemma FirstDeleteSuffices(s: Sys, r: nat, k: KeyId)
    requires r !in s.revokes && k in s.db && s.passes == map[]
    ensures Enabled(s, RevokeStart(r, k)) && Enabled(Do(s, RevokeStart(r, k)), FirstDelete(r))
    ensures var s1 := Do(Do(s, RevokeStart(r, k)), FirstDelete(r));
      && k !in s1.redis && Enabled(s1, RevokeCommit(r)) && Enabled(Do(s1, RevokeCommit(r)), SecondDelete(r, false))
      && var s2 := Do(Do(s1, RevokeCommit(r)), SecondDelete(r, false));
      && k !in s2.redis && k in s2.db && s2.db[k].revoked && r !in s2.revokes
  {
  }

  lemma {:induction false} Extend(s: Sys, es: seq<Event>, e: Event)
    requires IsRun(s, es) && Enabled(After(s, es), e)
    ensures IsRun(s, es + [e]) && After(s, es + [e]) == Do(After(s, es), e)
    decreases es
  {
    if es == [] {
      assert [e][1..] == [];
    } else {
      assert (es + [e])[1..] == es[1..] + [e];
      Extend(Do(s, es[0]), es[1..], e);
    }
  }

  /** A pass has listed the key as valid; then the key is revoked, both deletes included. */
  lemma RevokedDuringPass(k: KeyId) returns (s: Sys, es: seq<Event>)
    ensures Fresh(s) && IsRun(s, es)
    ensures After(s, es) ==
      Sys(map[k := KeyRow(false, true)], {}, map[0 := Publishing(map[k := KeyRow(false, false)], {k})], map[], {})
  {
    var db := map[k := KeyRow(false, false)];
    s, es := Sys(db, {k}, map[], map[], {}), [];
    Extend(s, es, PassStart(0));
    es := es + [PassStart(0)];
    Extend(s, es, RevokeStart(0, k));
    es := es + [RevokeStart(0, k)];
    Extend(s, es, FirstDelete(0));
    es := es + [FirstDelete(0)];
    var s3 := After(s, es);
    assert s3.db == db && s3.redis == {} && s3.leaked == {} && db.Keys == {k};
    assert s3.passes == map[0 := Publishing(db, {k})];
    assert s3.revokes == map[0 := Deleted(k)];
    Extend(s, es, RevokeCommit(0));
    es := es + [RevokeCommit(0)];
    Extend(s, es, SecondDelete(0, true));
    es := es + [SecondDelete(0, true)];
  }

  /** The faults matter: a pass that is aborted between its write and its re-check leaves a revoked key readable,
      with nothing in flight. */
  lemma AbortedPassLeaks(k: KeyId) returns (s: Sys, es: seq<Event>)
    ensures Fresh(s) && IsRun(s, es)
    ensures var s' := After(s, es);
      s'.passes == map[] && s'.revokes == map[] && k in s'.db && s'.db[k].revoked && k in s'.redis
  {
    s, es := RevokedDuringPass(k);
    Extend(s, es, Publish(0, k, false));
    es := es + [Publish(0, k, false)];
    Extend(s, es, PassAbort(0));
    es := es + [PassAbort(0)];
  }
}
