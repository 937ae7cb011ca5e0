/** The Docker backend's containers and volumes (app/cluster/docker.py), with network isolation off. */
module DockerBackend {
  import opened Options
  import opened Resources
  import opened States
  import opened Labels

  datatype Role = Main | Worker

  datatype Container = Container(
    model: string, role: Role, image: string, resources: Resources, gpu: bool, running: bool)

  datatype Spec = Spec(name: string, image: string, mode: Mode, resources: Resources, apiResources: Option<Resources>)

  // ----- names -----

  function Base(name: string): string { "mlapi-m-" + name }

  function ApiOf(name: string): string { Base(name) + "-api" }

  function WorkerOf(name: string): string { Base(name) + "-worker" }

  function CacheOf(name: string): string { Base(name) + "-cache" }

  predicate Owns(name: string, container: string) {
    container == Base(name) || container == ApiOf(name) || container == WorkerOf(name)
  }

  lemma SuffixInjective(a: string, b: string, suffix: string)
    requires Base(a) + suffix == Base(b) + suffix
    ensures a == b
  {
    var prefix := "mlapi-m-";
    assert a == (Base(a) + suffix)[|prefix|..|Base(a) + suffix| - |suffix|];
    assert b == (Base(b) + suffix)[|prefix|..|Base(b) + suffix| - |suffix|];
  }

  lemma SuffixReserved(a: string, b: string, suffix: string)
    requires Base(a) + suffix == Base(b)
    ensures EndsWith(b, suffix)
  {
    var prefix := "mlapi-m-";
    assert b == Base(b)[|prefix|..];
    assert Base(a) + suffix == prefix + (a + suffix);
    assert b == a + suffix;
  }

  lemma SuffixesDiffer(a: string, b: string)
    ensures ApiOf(a) != WorkerOf(b)
  {
    assert ApiOf(a)[|ApiOf(a)| - 1] == 'i' && WorkerOf(b)[|WorkerOf(b)| - 1] == 'r';
  }

  /** The containers and cache volumes of two different models never meet. */
  lemma NamespacesAreDisjoint(a: string, b: string, container: string)
    requires IsModelName(a) && IsModelName(b) && a != b
    ensures !(Owns(a, container) && Owns(b, container))
    ensures CacheOf(a) != CacheOf(b)
  {
    SuffixesDiffer(a, b);
    SuffixesDiffer(b, a);
    if Base(a) == Base(b) { assert Base(a) + "" == Base(b) + ""; SuffixInjective(a, b, ""); }
    if ApiOf(a) == ApiOf(b) { SuffixInjective(a, b, "-api"); }
    if WorkerOf(a) == WorkerOf(b) { SuffixInjective(a, b, "-worker"); }
    if CacheOf(a) == CacheOf(b) { SuffixInjective(a, b, "-cache"); }
    if ApiOf(a) == Base(b) { SuffixReserved(a, b, "-api"); }
    if ApiOf(b) == Base(a) { SuffixReserved(b, a, "-api"); }
    if WorkerOf(a) == Base(b) { SuffixReserved(a, b, "-worker"); }
    if WorkerOf(b) == Base(a) { SuffixReserved(b, a, "-worker"); }
  }

  lemma OwnNamesDiffer(name: string)
    ensures Base(name) != ApiOf(name) && Base(name) != WorkerOf(name) && ApiOf(name) != WorkerOf(name)
  {
    assert |Base(name)| < |ApiOf(name)| < |WorkerOf(name)|;
  }

  /** What the engine has for one model. */
  ghost function View(containers: map<string, Container>, name: string): map<string, Container> {
    map c | c in containers && Owns(name, c) :: containers[c]
  }

  /** Changing only the containers of `name` leaves every other model alone. */
  lemma OthersUntouched(before: map<string, Container>, after: map<string, Container>, name: string, other: string)
    requires IsModelName(name) && IsModelName(other) && name != other
    requires forall c :: !Owns(name, c) ==> (c in after <==> c in before) && (c in before ==> after[c] == before[c])
    ensures View(after, other) == View(before, other)
  {
    forall c | Owns(other, c) ensures !Owns(name, c) {
      NamespacesAreDisjoint(name, other, c);
    }
  }

  lemma QueueStart(m: map<string, Container>, base: string, api: string, a: Container)
    ensures (m - {base} - {api})[api := a.(running := false)][api := a] == (m - {base, api})[api := a]
  {
  }

  lemma QueueEnd(
    m: map<string, Container>, started: map<string, Container>, base: string, api: string, worker: string,
    a: Container, w: Container)
    requires base != api && base != worker && api != worker && started == (m - {base, api})[api := a]
    ensures (started - {worker})[worker := w] == (m - {base, api, worker})[api := a][worker := w]
    ensures (started - {worker})[worker := w.(running := false)][worker := w]
      == (m - {base, api, worker})[api := a][worker := w]
    ensures worker in started <==> worker in m
    ensures worker in m ==> started[worker] == m[worker]
  {
  }

  class DockerBackend {
    var containers: map<string, Container>
    var volumes: set<string>

    /** Removes a container, whatever it is doing; tells whether it was running. */
    method Replace(name: string) returns (wasRunning: bool)
      modifies this`containers
      ensures containers == old(containers) - {name}
      ensures wasRunning <==> name in old(containers) && old(containers)[name].running
    {
      if name !in containers { return false; }
      wasRunning := containers[name].running;
      containers := containers - {name};
    }

    /** The engine refuses a second container of the same name. */
    method Create(name: string, c: Container)
      requires name !in containers
      modifies this`containers
      ensures containers == old(containers)[name := c.(running := false)]
    {
      containers := containers[name := c.(running := false)];
    }

    method Start(name: string)
      requires name in containers
      modifies this`containers
      ensures containers == old(containers)[name := old(containers)[name].(running := true)]
    {
      containers := containers[name := containers[name].(running := true)];
    }

    /** Leaves the model with exactly the containers of its mode, made from the spec: a sync model with one running
        container; a queue model with its API running and its worker running exactly if a worker was running before. */
    method Apply(spec: Spec, imageFound: bool) returns (ok: bool)
      modifies this
      ensures ok == imageFound
      ensures !ok ==> containers == old(containers) && volumes == old(volumes)
      ensures ok ==> volumes == old(volumes) + {CacheOf(spec.name)}
      ensures ok && spec.mode.Sync? ==> containers == Others(old(containers), spec.name)[
        Base(spec.name) := Container(spec.name, Main, spec.image, spec.resources, spec.resources.gpu, true)]
      ensures ok && spec.mode.Queue? ==>
        var api := if spec.apiResources.Some? then spec.apiResources.value else spec.resources;
        var wasRunning := WorkerOf(spec.name) in old(containers) && old(containers)[WorkerOf(spec.name)].running;
        containers == Others(old(containers), spec.name)[
          ApiOf(spec.name) := Container(spec.name, Main, spec.image, api, false, true)][
          WorkerOf(spec.name) :=
            Container(spec.name, Worker, spec.image, spec.resources, spec.resources.gpu, wasRunning)]
      ensures forall other :: IsModelName(spec.name) && IsModelName(other) && other != spec.name ==>
        View(containers, other) == View(old(containers), other)
      ensures forall c :: !Owns(spec.name, c) ==> (c in containers <==> c in old(containers))
      ensures forall c :: !Owns(spec.name, c) && c in containers ==> containers[c] == old(containers)[c]
      ensures ok && spec.mode.Sync? ==> View(containers, spec.name).Keys == {"mlapi-m-" + spec.name}
      ensures ok && spec.mode.Queue? ==>
        View(containers, spec.name).Keys == {"mlapi-m-" + spec.name + "-api", "mlapi-m-" + spec.name + "-worker"}
    {
      OwnNamesDiffer(spec.name);
      if !imageFound { return false; }
      volumes := volumes + {CacheOf(spec.name)};
      if spec.mode.Queue? { ApplyQueue(spec); } else { ApplySync(spec); }
      forall other | IsModelName(spec.name) && IsModelName(other) && other != spec.name
        ensures View(containers, other) == View(old(containers), other)
      {
        OthersUntouched(old(containers), containers, spec.name, other);
      }
      ok := true;
    }

    method ApplyQueue(spec: Spec)
      modifies this`containers
      ensures
        var api := if spec.apiResources.Some? then spec.apiResources.value else spec.resources;
        var wasRunning := WorkerOf(spec.name) in old(containers) && old(containers)[WorkerOf(spec.name)].running;
        containers == Others(old(containers), spec.name)[
          ApiOf(spec.name) := Container(spec.name, Main, spec.image, api, false, true)][
          WorkerOf(spec.name) :=
            Container(spec.name, Worker, spec.image, spec.resources, spec.resources.gpu, wasRunning)]
    {
      OwnNamesDiffer(spec.name);
      var apiResources := if spec.apiResources.Some? then spec.apiResources.value else spec.resources;
      ReplaceQueue(Base(spec.name), ApiOf(spec.name), WorkerOf(spec.name),
                   Container(spec.name, Main, spec.image, apiResources, false, true),
                   Container(spec.name, Worker, spec.image, spec.resources, spec.resources.gpu, false));
    }

    /** The order of a queue model's replacement: the API first, the worker last and only restarted if it ran. */
    method ReplaceQueue(base: string, api: string, worker: string, a: Container, w: Container)
      requires base != api && base != worker && api != worker && a.running
      modifies this`containers
      ensures containers == (old(containers) - {base, api, worker})[api := a][
        worker := w.(running := worker in old(containers) && old(containers)[worker].running)]
    {
      var _ := Replace(base);  // a sync container of the same name
      var _ := Replace(api);
      Create(api, a);
      Start(api);
      ghost var started := containers;
      QueueStart(old(containers), base, api, a);
      var workerWasRunning := Replace(worker);
      Create(worker, w);
      if workerWasRunning { Start(worker); }
      QueueEnd(old(containers), started, base, api, worker, a, w.(running := workerWasRunning));
    }

    method ApplySync(spec: Spec)
      modifies this`containers
      ensures containers == Others(old(containers), spec.name)[
        Base(spec.name) := Container(spec.name, Main, spec.image, spec.resources, spec.resources.gpu, true)]
    {
      var base := Base(spec.name);
      OwnNamesDiffer(spec.name);
      var _ := Replace(base + "-api");
      var _ := Replace(base + "-worker");
      var _ := Replace(base);
      Create(base, Container(spec.name, Main, spec.image, spec.resources, spec.resources.gpu, false));
      Start(base);
    }

    /** Removes the model's containers and, unless it is kept, its cache; nothing of any other model. */
    method Delete(name: string, keepCache: bool)
      modifies this
      ensures containers == Others(old(containers), name) && View(containers, name) == map[]
      ensures forall c :: c in containers <==>
        && c in old(containers)
        && c != "mlapi-m-" + name && c != "mlapi-m-" + name + "-api" && c != "mlapi-m-" + name + "-worker"
      ensures forall c :: c in containers ==> containers[c] == old(containers)[c]
      ensures volumes == if keepCache then old(volumes) else old(volumes) - {CacheOf(name)}
      ensures forall other :: IsModelName(name) && IsModelName(other) && other != name ==>
        View(containers, other) == View(old(containers), other)
        && (CacheOf(other) in volumes <==> CacheOf(other) in old(volumes))
    {
      containers := containers - {Base(name)};
      containers := containers - {ApiOf(name)};
      containers := containers - {WorkerOf(name)};
      if !keepCache { volumes := volumes - {CacheOf(name)}; }
      forall other | IsModelName(name) && IsModelName(other) && other != name
        ensures View(containers, other) == View(old(containers), other) && CacheOf(other) != CacheOf(name)
      {
        OthersUntouched(old(containers), containers, name, other);
        NamespacesAreDisjoint(name, other, Base(name));
      }
    }

    /** The container the Router talks to: a queue model's API before a sync model's own. */
    function MainOf(name: string): Option<string>
      reads this
    {
      if ApiOf(name) in containers then Some(ApiOf(name))
      else if Base(name) in containers then Some(Base(name)) else None
    }

    /** Starts or stops one container; nothing else changes. */
    method Scale(name: string, replicas: int, role: Role) returns (ok: bool)
      modifies this`containers
      ensures var target :=
        if role.Worker? then (if WorkerOf(name) in old(containers) then Some(WorkerOf(name)) else None)
        else old(MainOf(name));
        && (ok <==> target.Some?)
        && containers == (if target.None? then old(containers)
                          else old(containers)[target.value := old(containers)[target.value].(running := replicas > 0)])
    {
      var target :=
        if role.Worker? then (if WorkerOf(name) in containers then Some(WorkerOf(name)) else None)
        else MainOf(name);
      if target.None? { return false; }
      var c := containers[target.value];
      if replicas <= 0 {
        if c.running { containers := containers[target.value := c.(running := false)]; }
      } else if !c.running {
        containers := containers[target.value := c.(running := true)];
      }
      ok := true;
    }
  }

  /** Everything that is not a container of `name`. */
  function Others(containers: map<string, Container>, name: string): map<string, Container> {
    containers - {Base(name), ApiOf(name), WorkerOf(name)}
  }
}
