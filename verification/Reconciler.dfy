/** One undisturbed pass of the reconciler (app/lifecycle/reconciler.py): from whatever Redis and the cluster contain,
    it makes them match the database, but for the models whose reconciliation raises. */
module Reconciler {
  import opened Options
  import opened States
  import opened RedisSync

  /** The columns of a model row that the reconciler reads. */
  datatype Row = Row(state: State, mode: Mode, current: Option<string>, approved: bool, limits: string)

  function DesiredRouteState(state: State, mode: Mode): Option<RouteState> {
    if state.Ready? then Some(RouteReady)
    else if state.Sleeping? then Some(if mode.Sync? then RouteSleeping else RouteReady)
    else if state.Failed? then Some(RouteUnavailable)
    else None
  }

  /** Everything a pass may read or change, as a value. */
  datatype World = World(
    db: map<string, Row>,
    workloads: set<string>,
    routes: map<string, Route>,
    routeIndex: set<string>,
    schemas: map<string, string>,
    users: set<string>)        // the ACL users of queue models

  /** Where the reconciliation of a model raises: at once, before its route is touched, or before its schema is. */
  datatype Break = AtOnce | AtRoute | AtSchema

  /** What the pass meets outside: where a model answers, the schema it serves, the queue users that can be provisioned,
      and the models whose reconciliation raises (which is logged, and the pass goes on). */
  datatype Outside = Outside(
    endpoint: map<string, string>, schema: map<string, string>, provisioned: set<string>, broken: map<string, Break>)

  /** The reconciliation of the name gets past this point. */
  predicate Passes(o: Outside, name: string, b: Break) {
    name !in o.broken || (o.broken[name].AtSchema? && !b.AtSchema?) || (o.broken[name].AtRoute? && b.AtOnce?)
  }

  // ----- one name -----

  /** What a world shows of one name. */
  datatype Shown = Shown(row: Option<Row>, runs: bool, route: Option<Route>, schema: Option<string>, user: bool)

  function Lookup<T>(m: map<string, T>, name: string): Option<T> {
    if name in m then Some(m[name]) else None
  }

  function OnlyIf<T>(kept: bool, x: Option<T>): Option<T> { if kept then x else None }

  function Show(w: World, name: string): Shown {
    Shown(Lookup(w.db, name), name in w.workloads, Lookup(w.routes, name), Lookup(w.schemas, name), name in w.users)
  }

  predicate Active(x: Shown) { x.row.Some? && !x.row.value.state.Removed? }

  /** The row says the model serves or sleeps, but its workload is gone. */
  predicate Missing(x: Shown) { x.row.Some? && Settled(x.row.value.state) && x.row.value.current.Some? && !x.runs }

  /** Such a workload is deployed again, unless the claim is refused for lack of an approval. */
  predicate Claims(x: Shown) { Missing(x) && x.row.value.approved }

  function Wanted(x: Shown): Option<RouteState> {
    if x.row.None? || Missing(x) then None else DesiredRouteState(x.row.value.state, x.row.value.mode)
  }

  function WantedRoute(x: Shown, o: Outside, name: string): Route
    requires Wanted(x).Some?
  {
    Route(if name in o.endpoint then o.endpoint[name] else "", Wanted(x).value, x.row.value.mode, x.row.value.limits)
  }

  /** The model has a queue and needs the user that serves it. */
  predicate NeedsUser(x: Shown) {
    Active(x) && !Missing(x) && !Busy(x.row.value.state) && x.row.value.mode.Queue? && x.row.value.current.Some?
  }

  // ----- what a pass must achieve -----

  /** Redis, the cluster and the database agree about the name, as far as its reconciliation gets. Speaks of one world
      only, not of where it came from. */
  predicate InOrder(x: Shown, o: Outside, name: string) {
    && (x.runs || x.route.Some? || x.schema.Some? ==> Active(x))
    && (Passes(o, name, AtOnce) && NeedsUser(x) && name in o.provisioned ==> x.user)
    && (Passes(o, name, AtRoute) && Wanted(x).Some? ==> x.route == Some(WantedRoute(x, o, name)))
    && (Passes(o, name, AtSchema) ==>
          (Wanted(x).Some? && x.row.value.state.Ready? && name in o.schema ==> x.schema.Some?) && !Claims(x))
  }

  ghost predicate Converged(w: World, o: Outside) { forall n :: InOrder(Show(w, n), o, n) }

  // ----- what a pass does -----

  function Reconciled(x: Shown, o: Outside, name: string): Shown {
    if x.row.None? then x
    else if x.row.value.state.Removed? then
      x.(route := if Passes(o, name, AtRoute) then None else x.route,
         schema := if Passes(o, name, AtSchema) then None else x.schema)
    else if Missing(x) then
      if Claims(x) && Passes(o, name, AtSchema) then x.(row := Some(x.row.value.(state := Deploying))) else x
    else
      x.(user := x.user || (NeedsUser(x) && name in o.provisioned && Passes(o, name, AtOnce)),
         route := if Wanted(x).Some? && Passes(o, name, AtRoute) then Some(WantedRoute(x, o, name)) else x.route,
         schema := if Wanted(x).Some? && x.row.value.state.Ready? && x.schema.None? && Passes(o, name, AtSchema)
                   then Lookup(o.schema, name) else x.schema)
  }

  function Swept(x: Shown): Shown {
    if Active(x) then x else x.(runs := false, route := None, schema := None)
  }

  ghost predicate IsPass(w: World, w': World, o: Outside) {
    forall n :: Show(w', n) == Swept(Reconciled(Show(w, n), o, n))
  }

  /** From whatever Redis and the cluster held. */
  lemma PassConverges(w: World, w': World, o: Outside)
    requires IsPass(w, w', o)
    ensures Converged(w', o)
  {
    forall n ensures InOrder(Show(w', n), o, n) {
      assert Show(w', n) == Swept(Reconciled(Show(w, n), o, n));
    }
  }

  /** What the Router finds after a pass: a ready model answers, a sleeping sync model is marked as sleeping, a sleeping
      queue model still answers, a failed one is unavailable; a removed or unknown one has no route and no workload. */
  lemma PassShowsStates(w: World, w': World, o: Outside, name: string)
    requires IsPass(w, w', o) && name !in o.broken
    requires name in w.db && (name in w.workloads || w.db[name].current.None? || w.db[name].state.Failed?)
    ensures var row := w.db[name];
      && (row.state.Ready? ==> name in w'.routes && w'.routes[name].state == RouteReady)
      && (row.state.Sleeping? && row.mode.Sync? ==> name in w'.routes && w'.routes[name].state == RouteSleeping)
      && (row.state.Sleeping? && row.mode.Queue? ==> name in w'.routes && w'.routes[name].state == RouteReady)
      && (row.state.Failed? ==> name in w'.routes && w'.routes[name].state == RouteUnavailable)
      && (row.state.Removed? ==> name !in w'.routes && name !in w'.workloads && name !in w'.schemas)
      && (row.state.PendingApproval? || Busy(row.state) ==> Lookup(w'.routes, name) == Lookup(w.routes, name))
      && (Settled(row.state) || row.state.Failed? ==>
            w'.routes[name].mode == row.mode && w'.routes[name].limits == row.limits
            && w'.routes[name].url == if name in o.endpoint then o.endpoint[name] else "")
  {
    assert Show(w', name) == Swept(Reconciled(Show(w, name), o, name));
  }

  lemma UnknownNamesVanish(w: World, w': World, o: Outside, name: string)
    requires IsPass(w, w', o) && name !in w.db
    ensures name !in w'.db && name !in w'.routes && name !in w'.workloads && name !in w'.schemas
  {
    assert Show(w', name) == Swept(Reconciled(Show(w, name), o, name));
  }

  /** A ready or sleeping model without its workload is claimed exactly if it has approved resources. */
  lemma MissingIsClaimed(w: World, w': World, o: Outside, name: string)
    requires IsPass(w, w', o) && name !in o.broken && name in w.db && name !in w.workloads
    requires (w.db[name].state.Ready? || w.db[name].state.Sleeping?) && w.db[name].current.Some?
    ensures name in w'.db && (w'.db[name].state.Deploying? <==> w.db[name].approved)
    ensures !w.db[name].approved ==> w'.db[name] == w.db[name]
  {
    assert Show(w', name) == Swept(Reconciled(Show(w, name), o, name));
  }

  ghost predicate AgreesOffIndex(w: World, w': World) {
    && w'.db == w.db && w'.workloads == w.workloads && w'.routes == w.routes && w'.schemas == w.schemas
    && w'.users == w.users
  }

  lemma SameMap<T>(a: map<string, T>, b: map<string, T>)
    requires forall n :: Lookup(a, n) == Lookup(b, n)
    ensures a == b
  {
    assert forall n :: n in a ==> Lookup(a, n) == Lookup(b, n);
    assert forall n :: n in b ==> Lookup(a, n) == Lookup(b, n);
  }

  lemma SameWorld(w: World, w': World)
    requires forall n :: Show(w, n) == Show(w', n)
    ensures AgreesOffIndex(w, w')
  {
    forall n
      ensures Lookup(w'.db, n) == Lookup(w.db, n) && Lookup(w'.routes, n) == Lookup(w.routes, n)
      ensures Lookup(w'.schemas, n) == Lookup(w.schemas, n)
      ensures (n in w'.workloads <==> n in w.workloads) && (n in w'.users <==> n in w.users)
    {
      assert Show(w, n) == Show(w', n);
    }
    SameMap(w'.db, w.db);
    SameMap(w'.routes, w.routes);
    SameMap(w'.schemas, w.schemas);
  }

  /** A pass changes nothing exactly when everything agreed already. */
  lemma IdleIffConverged(w: World, w': World, o: Outside)
    requires IsPass(w, w', o)
    ensures Converged(w, o) <==> AgreesOffIndex(w, w')
  {
    if Converged(w, o) {
      forall n ensures Show(w, n) == Show(w', n) {
        assert InOrder(Show(w, n), o, n) && Show(w', n) == Swept(Reconciled(Show(w, n), o, n));
      }
      SameWorld(w, w');
    }
    if AgreesOffIndex(w, w') {
      PassConverges(w, w', o);
      forall n ensures InOrder(Show(w, n), o, n) {
        assert Show(w, n) == Show(w', n) && InOrder(Show(w', n), o, n);
      }
    }
  }

  /** Another pass with nothing happening in between finds nothing to do. */
  lemma SecondPassIsIdle(w: World, w': World, w'': World, o: Outside)
    requires IsPass(w, w', o) && IsPass(w', w'', o)
    ensures AgreesOffIndex(w', w'')
  {
    PassConverges(w, w', o);
    IdleIffConverged(w', w'', o);
  }

  // ----- a pass under way -----

  /** The models in `done` have been reconciled, the others are as they were. */
  ghost predicate Progress(w: World, w': World, o: Outside, done: set<string>) {
    forall n :: Show(w', n) == if n in done then Reconciled(Show(w, n), o, n) else Show(w, n)
  }

  ghost predicate OnlyOne(w: World, w': World, o: Outside, name: string) {
    && Show(w', name) == Reconciled(Show(w, name), o, name)
    && forall n :: n != name ==> Show(w', n) == Show(w, n)
  }

  lemma OneMore(w: World, v: World, v': World, o: Outside, done: set<string>, name: string)
    requires Progress(w, v, o, done) && name !in done && OnlyOne(v, v', o, name)
    ensures Progress(w, v', o, done + {name})
  {
    forall n ensures Show(v', n) == if n in done + {name} then Reconciled(Show(w, n), o, n) else Show(w, n) {
      assert Show(v, n) == if n in done then Reconciled(Show(w, n), o, n) else Show(w, n);
    }
  }

  lemma PassDone(w: World, v: World, w': World, o: Outside)
    requires Progress(w, v, o, w.db.Keys) && forall n :: Show(w', n) == Swept(Show(v, n))
    ensures IsPass(w, w', o)
  {
    forall n ensures Show(w', n) == Swept(Reconciled(Show(w, n), o, n)) {
      assert Show(w', n) == Swept(Show(v, n));
      assert Show(v, n) == if n in w.db.Keys then Reconciled(Show(w, n), o, n) else Show(w, n);
    }
  }

  class Reconciler {
    const redis: Redis
    var db: map<string, Row>
    var workloads: set<string>
    var users: set<string>

    constructor (redis: Redis, db: map<string, Row>, workloads: set<string>, users: set<string>)
      ensures this.redis == redis && this.db == db && this.workloads == workloads && this.users == users
    {
      this.redis, this.db, this.workloads, this.users := redis, db, workloads, users;
    }

    ghost function Contents(): World
      reads this, redis
    {
      World(db, workloads, redis.routes, redis.routeIndex, redis.schemas, users)
    }

    ghost predicate Indexed()
      reads redis
    {
      redis.routes.Keys <= redis.routeIndex
    }

    method ActiveNames() returns (names: set<string>)
      ensures forall n :: n in names <==> Active(Show(Contents(), n))
    {
      names := set n | n in db && !db[n].state.Removed?;
    }

    /** The pass: keys, models, then the sweeps of orphaned workloads, routes and schemas. The keys are published at
        `now` and checked again at `later`. */
    method Tick(rows: Table, current: map<string, ApiKey>, now: real, later: real, o: Outside)
      returns (claimed: set<string>)
      requires DistinctIds(rows) && now <= later
      requires forall i :: 0 <= i < |rows| ==> rows[i].0 in current && current[rows[i].0] == rows[i].1
      modifies this, redis
      ensures KeysMatch(redis.keys, rows, now, later) && KeysAreRight(redis.keys, rows, now, later)
      ensures IsPass(old(Contents()), Contents(), o)
      ensures forall n :: n in claimed <==> Claims(Show(old(Contents()), n)) && n !in o.broken
      ensures old(Indexed()) ==> Indexed()
    {
      ghost var w := Contents();
      redis.RebuildKeys(rows, now);
      ghost var rebuilt := redis.keys;
      var ids := seq(|rows|, i requires 0 <= i < |rows| => rows[i].0);
      redis.DropRevoked(current, ids, later);
      DropKeepsMatch(rebuilt, redis.keys, rows, current, ids, now, later);
      MatchIsRight(redis.keys, rows, now, later);
      claimed := ReconcileAll(o);
      ghost var reconciled := Contents();
      Sweep();
      PassDone(w, reconciled, Contents(), o);
    }

    method ReconcileAll(o: Outside) returns (claimed: set<string>)
      modifies this`db, this`users, redis`routes, redis`routeIndex, redis`schemas
      ensures Progress(old(Contents()), Contents(), o, old(db.Keys))
      ensures forall n :: n in claimed <==> Claims(Show(old(Contents()), n)) && n !in o.broken
      ensures old(Indexed()) ==> Indexed()
    {
      ghost var w := Contents();
      claimed := {};
      var todo := db.Keys;
      while todo != {}
        invariant todo <= w.db.Keys
        invariant Progress(w, Contents(), o, w.db.Keys - todo)
        invariant forall n :: n in claimed <==> n !in todo && Claims(Show(w, n)) && n !in o.broken
        invariant old(Indexed()) ==> Indexed()
      {
        var name :| name in todo;
        ghost var v := Contents();
        assert Show(v, name) == Show(w, name);
        var claims := ReconcileModel(name, o);
        OneMore(w, v, Contents(), o, w.db.Keys - todo, name);
        assert w.db.Keys - (todo - {name}) == w.db.Keys - todo + {name};
        todo := todo - {name};
        if claims { claimed := claimed + {name}; }
      }
      assert w.db.Keys - todo == w.db.Keys;
    }

    method ReconcileModel(name: string, o: Outside) returns (claims: bool)
      requires name in db
      modifies this`db, this`users, redis`routes, redis`routeIndex, redis`schemas
      ensures OnlyOne(old(Contents()), Contents(), o, name)
      ensures claims <==> Claims(Show(old(Contents()), name)) && name !in o.broken
      ensures old(Indexed()) ==> Indexed()
    {
      claims := false;
      var row := db[name];
      if row.state.Removed? {
        if !Passes(o, name, AtRoute) { return; }
        redis.DeleteRoute(name);
        if !Passes(o, name, AtSchema) { return; }
        redis.DeleteSchema(name);
        return;
      }
      if Busy(row.state) { return; }
      if Settled(row.state) && row.current.Some? && name !in workloads {
        if Passes(o, name, AtSchema) { claims := HealMissingWorkload(name); }
        return;
      }
      Refresh(name, o);
    }

    /** The queue user, the route and the schema of a model that is neither busy nor missing. */
    method Refresh(name: string, o: Outside)
      requires name in db && !db[name].state.Removed? && !Busy(db[name].state)
      requires !Missing(Show(Contents(), name))
      modifies this`users, redis`routes, redis`routeIndex, redis`schemas
      ensures OnlyOne(old(Contents()), Contents(), o, name)
      ensures old(Indexed()) ==> Indexed()
    {
      var row := db[name];
      if !Passes(o, name, AtOnce) { return; }
      if row.mode.Queue? && row.current.Some? && name in o.provisioned { users := users + {name}; }
      var wanted := DesiredRouteState(row.state, row.mode);
      if wanted.None? || !Passes(o, name, AtRoute) { return; }
      var url := if name in o.endpoint then o.endpoint[name] else "";
      redis.PublishRoute(name, Route(url, wanted.value, row.mode, row.limits));
      if row.state.Ready? && name !in redis.schemas && name in o.schema && Passes(o, name, AtSchema) {
        redis.PublishSchema(name, o.schema[name]);
      }
    }

    /** Claims the model for a redeploy of its current version; the claim is refused without approved resources. */
    method HealMissingWorkload(name: string) returns (claims: bool)
      requires name in db && Startable(db[name].state)
      modifies this`db
      ensures claims == old(db)[name].approved
      ensures db == if claims then old(db)[name := old(db)[name].(state := Deploying)] else old(db)
    {
      claims := db[name].approved;
      if claims { db := db[name := db[name].(state := Deploying)]; }
    }

    /** The orphan sweeps keep exactly what belongs to an active name. */
    method Sweep()
      modifies this`workloads, redis`routes, redis`schemas
      ensures forall n :: Show(Contents(), n) == Swept(Show(old(Contents()), n))
      ensures old(Indexed()) ==> Indexed()
    {
      SweepWorkloads();
      SweepRoutes();
      SweepSchemas();
    }

    method SweepWorkloads()
      modifies this`workloads
      ensures forall n :: n in workloads <==> n in old(workloads) && Active(Show(old(Contents()), n))
    {
      var active := ActiveNames();
      workloads := workloads - (workloads - active);
    }

    /** Deletes the route keys only: the index keeps the names. */
    method SweepRoutes()
      modifies redis`routes
      ensures forall n ::
        Lookup(redis.routes, n) == OnlyIf(Active(Show(old(Contents()), n)), Lookup(old(redis.routes), n))
      ensures old(Indexed()) ==> Indexed()
    {
      var active := ActiveNames();
      redis.routes := redis.routes - (redis.routes.Keys - active);
    }

    method SweepSchemas()
      modifies redis`schemas
      ensures forall n ::
        Lookup(redis.schemas, n) == OnlyIf(Active(Show(old(Contents()), n)), Lookup(old(redis.schemas), n))
    {
      var active := ActiveNames();
      redis.schemas := redis.schemas - (redis.schemas.Keys - active);
    }
  }
}
