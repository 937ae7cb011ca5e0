/** What the Supervisor publishes in Redis (app/redis_sync/keys.py, app/redis_sync/routes.py). */
module RedisSync {
  import opened Options
  import opened States

  // ----- API keys -----

  /** `record` is the JSON the Router reads. */
  datatype ApiKey = ApiKey(record: string, expiresAt: Option<int>, revokedAt: Option<int>)

  datatype Entry = Entry(record: string, ttl: Option<int>)

  predicate IsValid(key: ApiKey, now: real) {
    key.revokedAt.None? && (key.expiresAt.None? || key.expiresAt.value as real > now)
  }

  /** `max(1, int(expires_at - now))` seconds. */
  function Ttl(key: ApiKey, now: real): Option<int>
    requires IsValid(key, now)
  {
    if key.expiresAt.None? then None
    else
      var left := (key.expiresAt.value as real - now).Floor;
      Some(if left < 1 then 1 else left)
  }

  /** A published key outlives its expiry by less than a second and ends at most a second before it. */
  lemma TtlMatchesExpiry(key: ApiKey, now: real)
    requires IsValid(key, now) && key.expiresAt.Some?
    ensures Ttl(key, now).Some? && Ttl(key, now).value >= 1
    ensures key.expiresAt.value as real - 1.0 < now + Ttl(key, now).value as real < key.expiresAt.value as real + 1.0
  {
  }

  function Published(key: ApiKey, now: real): Entry
    requires IsValid(key, now)
  {
    Entry(key.record, Ttl(key, now))
  }

  type Table = seq<(string, ApiKey)>

  ghost predicate DistinctIds(rows: Table) { forall i, j :: 0 <= i < j < |rows| ==> rows[i].0 != rows[j].0 }

  /** Revoked, or expired when it is read. */
  predicate Unusable(key: ApiKey, read: real) {
    key.revokedAt.Some? || (key.expiresAt.Some? && key.expiresAt.value as real <= read)
  }

  /** `key:*` in terms of the columns: revoked keys, keys that have expired by `later` and ids outside the table are not
      there; every other key is, with its record, and with a TTL exactly if it expires, which then ends within a second
      of its expiry. */
  ghost predicate KeysAreRight(keys: map<string, Entry>, rows: Table, now: real, later: real) {
    && (forall i :: 0 <= i < |rows| && Unusable(rows[i].1, later) ==> rows[i].0 !in keys)
    && (forall i :: 0 <= i < |rows| && !Unusable(rows[i].1, later) ==>
          rows[i].0 in keys && EntryIsRight(keys[rows[i].0], rows[i].1, now))
    && (forall id :: id in keys ==> exists i :: 0 <= i < |rows| && rows[i].0 == id)
  }

  predicate EntryIsRight(e: Entry, key: ApiKey, now: real) {
    && e.record == key.record && (e.ttl.Some? <==> key.expiresAt.Some?)
    && (e.ttl.Some? ==>
          && e.ttl.value >= 1
          && key.expiresAt.value as real - 1.0 < now + e.ttl.value as real < key.expiresAt.value as real + 1.0)
  }

  lemma PublishedIsRight(key: ApiKey, now: real)
    requires IsValid(key, now)
    ensures EntryIsRight(Published(key, now), key, now)
  {
    if key.expiresAt.Some? { TtlMatchesExpiry(key, now); }
  }

  lemma MatchIsRight(keys: map<string, Entry>, rows: Table, now: real, later: real)
    requires now <= later && DistinctIds(rows) && KeysMatch(keys, rows, now, later)
    ensures KeysAreRight(keys, rows, now, later)
  {
    forall i | 0 <= i < |rows| && IsValid(rows[i].1, later) ensures EntryIsRight(keys[rows[i].0], rows[i].1, now) {
      ExpiryIsForGood(rows[i].1, now, later);
      PublishedIsRight(rows[i].1, now);
    }
    forall i | 0 <= i < |rows| && rows[i].0 in keys ensures IsValid(rows[i].1, later) {
      var j :| 0 <= j < |rows| && rows[j].0 == rows[i].0 && IsValid(rows[j].1, later);
      assert i == j;
    }
  }

  lemma ExpiryIsForGood(key: ApiKey, now: real, later: real)
    requires now <= later && IsValid(key, later)
    ensures IsValid(key, now)
  {
  }

  /** `key:*` holds exactly the keys of the table that are valid at `later`, as they were published at `now`. */
  ghost predicate KeysMatch(keys: map<string, Entry>, rows: Table, now: real, later: real)
    requires now <= later
  {
    && (forall i :: 0 <= i < |rows| && IsValid(rows[i].1, later) ==>
          rows[i].0 in keys && keys[rows[i].0] == Published(rows[i].1, now))
    && (forall id :: id in keys ==> exists i :: 0 <= i < |rows| && rows[i].0 == id && IsValid(rows[i].1, later))
  }

  /** Exactly the listed keys that a later read calls gone, revoked or expired are gone. */
  ghost predicate Dropped(
    keys: map<string, Entry>, keys': map<string, Entry>, current: map<string, ApiKey>, ids: seq<string>, later: real) {
    && (forall id :: id in keys' <==> id in keys && !(id in ids && (id !in current || !IsValid(current[id], later))))
    && (forall id :: id in keys' ==> keys'[id] == keys[id])
  }

  /** A rebuild at `now` and a re-check at `later` that finds the table as it was. */
  lemma DropKeepsMatch(
    keys: map<string, Entry>, keys': map<string, Entry>, rows: Table, current: map<string, ApiKey>, ids: seq<string>,
    now: real, later: real)
    requires now <= later && DistinctIds(rows) && KeysMatch(keys, rows, now, now)
    requires Dropped(keys, keys', current, ids, later)
    requires |ids| == |rows| && forall i :: 0 <= i < |rows| ==> ids[i] == rows[i].0
    requires forall i :: 0 <= i < |rows| ==> rows[i].0 in current && current[rows[i].0] == rows[i].1
    ensures KeysMatch(keys', rows, now, later)
  {
    forall i | 0 <= i < |rows| && IsValid(rows[i].1, later)
      ensures rows[i].0 in keys' && keys'[rows[i].0] == Published(rows[i].1, now)
    {
      ExpiryIsForGood(rows[i].1, now, later);
    }
    forall id | id in keys' ensures exists i :: 0 <= i < |rows| && rows[i].0 == id && IsValid(rows[i].1, later) {
      var i :| 0 <= i < |rows| && rows[i].0 == id && IsValid(rows[i].1, now);
      assert ids[i] in ids;
    }
  }

  /** The table and the two moments settle what `key:*` holds. */
  lemma KeysAreDetermined(a: map<string, Entry>, b: map<string, Entry>, rows: Table, now: real, later: real)
    requires now <= later && KeysMatch(a, rows, now, later) && KeysMatch(b, rows, now, later)
    ensures a == b
  {
    assert forall id :: id in a ==> id in b && a[id] == b[id];
    assert forall id :: id in b ==> id in a;
  }

  datatype RouteState = RouteReady | RouteSleeping | RouteUnavailable

  datatype Route = Route(url: string, state: RouteState, mode: Mode, limits: string)

  class Redis {
    var keys: map<string, Entry>        // key:<id>
    var routes: map<string, Route>      // route:<name>
    var routeIndex: set<string>
    var indexReady: bool                // route_index_ready: the Router may rely on the index
    var schemas: map<string, string>    // schema:<name>

    method PublishKey(id: string, key: ApiKey, now: real)
      modifies this`keys
      ensures keys == if IsValid(key, now) then old(keys)[id := Published(key, now)] else old(keys) - {id}
      ensures id in keys <==> !Unusable(key, now)
      ensures id in keys ==> EntryIsRight(keys[id], key, now)
    {
      if IsValid(key, now) { PublishedIsRight(key, now); }
      if !IsValid(key, now) {
        keys := keys - {id};
        return;
      }
      keys := keys[id := Published(key, now)];
    }

    /** From any contents, undisturbed: publish the valid keys, then scan and delete everything else. */
    method RebuildKeys(rows: Table, now: real)
      requires DistinctIds(rows)
      modifies this`keys
      ensures KeysMatch(keys, rows, now, now) && KeysAreRight(keys, rows, now, now)
    {
      var validIds: set<string> := {};
      for i := 0 to |rows|
        invariant forall j :: 0 <= j < i && IsValid(rows[j].1, now) ==>
          rows[j].0 in keys && keys[rows[j].0] == Published(rows[j].1, now) && rows[j].0 in validIds
        invariant forall id :: id in validIds ==> exists j :: 0 <= j < i && rows[j].0 == id && IsValid(rows[j].1, now)
      {
        PublishKey(rows[i].0, rows[i].1, now);
        if IsValid(rows[i].1, now) { validIds := validIds + {rows[i].0}; }
      }
      var scanned := keys.Keys;
      ghost var published := keys;
      while scanned != {}
        invariant scanned <= published.Keys
        invariant forall id :: id in keys <==> id in published && (id in scanned || id in validIds)
        invariant forall id :: id in keys ==> keys[id] == published[id]
      {
        var id :| id in scanned;
        scanned := scanned - {id};
        if id !in validIds { keys := keys - {id}; }
      }
      MatchIsRight(keys, rows, now, now);
    }

    /** Deletes the listed keys that a current read says are gone, revoked or expired. */
    method DropRevoked(current: map<string, ApiKey>, ids: seq<string>, now: real)
      modifies this`keys
      ensures Dropped(old(keys), keys, current, ids, now)
      ensures forall id :: id in ids && (id !in current || Unusable(current[id], now)) ==> id !in keys
      ensures forall id :: id in old(keys) && id in current && !Unusable(current[id], now) ==> id in keys
    {
      for i := 0 to |ids|
        invariant forall id :: id in keys <==>
          id in old(keys) && !(id in ids[..i] && (id !in current || !IsValid(current[id], now)))
        invariant forall id :: id in keys ==> keys[id] == old(keys)[id]
      {
        assert forall id :: id in ids[..i + 1] <==> id in ids[..i] || id == ids[i];
        if ids[i] !in current || !IsValid(current[ids[i]], now) { keys := keys - {ids[i]}; }
      }
      assert ids[..|ids|] == ids;
    }

    method PublishRoute(name: string, r: Route)
      modifies this`routes, this`routeIndex
      ensures routes == old(routes)[name := r] && routeIndex == old(routeIndex) + {name}
    {
      routes := routes[name := r];
      routeIndex := routeIndex + {name};
    }

    method DeleteRoute(name: string)
      modifies this`routes, this`routeIndex
      ensures routes == old(routes) - {name} && routeIndex == old(routeIndex) - {name}
    {
      routes := routes - {name};
      routeIndex := routeIndex - {name};
    }

    method PublishSchema(name: string, schema: string)
      modifies this`schemas
      ensures schemas == old(schemas)[name := schema]
    {
      schemas := schemas[name := schema];
    }

    method DeleteSchema(name: string)
      modifies this`schemas
      ensures schemas == old(schemas) - {name}
    {
      schemas := schemas - {name};
    }

    /** Makes the index match the routes that exist, then says that it can be relied on. */
    method RebuildRouteIndex()
      modifies this`routeIndex, this`indexReady
      ensures routeIndex == routes.Keys && indexReady
    {
      ghost var was := routeIndex;
      var names := routes.Keys;
      var stale := routeIndex - names;
      if stale != {} { routeIndex := routeIndex - stale; }
      if names != {} { routeIndex := routeIndex + names; }
      assert routeIndex == (was - (was - names)) + names;
      indexReady := true;
    }
  }
}
