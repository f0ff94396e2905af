/** The provisioner: the only hand that changes the world, through CLI calls and file
    operations that may fail before or after taking effect (provider/apple/container.go,
    state.go), and a ghost record of every world an operation passes through. */
module Runtime {
  import opened Types
  import opened Names
  import opened Recipes
  import opened Records
  import opened World

  /** Every world of the history satisfies p. */
  ghost predicate Always(history: seq<World>, p: World -> bool) {
    history == [] || (Always(history[..|history| - 1], p) && p(history[|history| - 1]))
  }

  lemma {:induction false} AlwaysAt(history: seq<World>, p: World -> bool, k: nat)
    requires Always(history, p) && k < |history|
    ensures p(history[k])
  {
    if k < |history| - 1 {
      AlwaysAt(history[..|history| - 1], p, k);
    }
  }

  lemma {:induction false} AlwaysWeaker(history: seq<World>, p: World -> bool, q: World -> bool)
    requires Always(history, p) && forall w :: p(w) ==> q(w)
    ensures Always(history, q)
  {
    if history != [] {
      AlwaysWeaker(history[..|history| - 1], p, q);
    }
  }

  lemma AlwaysMore(history: seq<World>, p: World -> bool, w: World)
    requires Always(history, p) && p(w)
    ensures Always(history + [w], p)
  {
    assert (history + [w])[..|history|] == history;
  }

  ghost function KeptFrom(c: string, d: string, w0: World): World -> bool {
    w => Kept(c, d, w0, w)
  }

  ghost function Anything(): World -> bool {
    w => true
  }

  /** The forwarding setup of a node cannot break p. */
  ghost predicate Steady(p: World -> bool, id: string) {
    forall w, cmd {:trigger Ran(w, id, cmd)} :: p(w) ==> p(Ran(w, id, cmd))
  }

  ghost predicate Implies(q: World -> bool, p: World -> bool) {
    forall w {:trigger q(w)} :: q(w) ==> p(w)
  }

  /** Only what was run in container id differs. */
  ghost predicate OnlyRan(w0: World, w: World, id: string) {
    && At(w, id).Some? == At(w0, id).Some?
    && w == (if id in w.containers && id in w0.containers then With(w0, id, w0.containers[id].(did := w.containers[id].did)) else w0)
  }

  lemma OnlyRanSelf(w: World, id: string)
    ensures OnlyRan(w, w, id)
  {
    if id in w.containers {
      assert w.containers[id := w.containers[id]] == w.containers;
    }
  }

  lemma OnlyRanMore(w0: World, w: World, id: string, cmd: GuestCommand)
    requires OnlyRan(w0, w, id)
    ensures OnlyRan(w0, Ran(w, id, cmd), id)
  {
    if id in w.containers {
      var did := w.containers[id].did + {cmd};
      assert Ran(w, id, cmd).containers == w0.containers[id := w0.containers[id].(did := did)];
    }
  }

  datatype Item = Item(name: string, cluster: Option<string>)

  class Provisioner {
    const domain: string
    var world: World
    ghost var trace: seq<World>
    ghost var origin: World
    ghost var scope: string
    ghost var watch: World -> bool

    constructor (domain: string, world: World)
      requires Tidy(world)
      ensures this.domain == domain && this.world == world
    {
      this.domain := domain;
      this.world := world;
      this.trace := [world];
      this.origin := world;
      this.scope := "";
      this.watch := Anything();
    }

    /** An operation on cluster scope is under way: trace holds its worlds, the present one
        last; each is tidy and lawful, agrees with the first on everything outside the
        cluster, and satisfies what the operation watches. */
    ghost predicate Valid()
      reads this
    {
      var sound :=
        && trace != [] && trace[0] == origin && trace[|trace| - 1] == world
        && Always(trace, KeptFrom(scope, domain, origin))
        && Always(trace, watch);
      sound
    }

    /** What holds now. */
    lemma Now()
      requires Valid()
      ensures Tidy(world) && Lawful(world, scope, domain) && Untouched(scope, origin, world) && watch(world)
    {
      AlwaysAt(trace, KeptFrom(scope, domain, origin), |trace| - 1);
    }

    /** What held at each point. */
    lemma Then(k: nat)
      requires Valid() && k < |trace|
      ensures Kept(scope, domain, origin, trace[k]) && watch(trace[k])
    {
      AlwaysAt(trace, KeptFrom(scope, domain, origin), k);
      AlwaysAt(trace, watch, k);
    }

    ghost method Begin(c: string, p: World -> bool)
      requires Tidy(world) && Lawful(world, c, domain) && p(world)
      modifies this`trace, this`origin, this`scope, this`watch
      ensures Valid() && trace == [world] && origin == world && scope == c && watch == p
    {
      trace, origin, scope, watch := [world], world, c, p;
      KeptSelf(c, domain, world);
    }

    /** The one place the world changes. */
    method Become(w: World)
      requires Valid() && Kept(scope, domain, world, w) && watch(w)
      modifies this`world, this`trace
      ensures Valid() && world == w && trace == old(trace) + [w]
    {
      Now();
      KeptTrans(scope, domain, origin, world, w);
      AlwaysMore(trace, KeptFrom(scope, domain, origin), w);
      AlwaysMore(trace, watch, w);
      world := w;
      trace := trace + [w];
    }

    /** A detached `container run`. A name in use is refused. */
    method Run(args: seq<string>, ghost l: Launch) returns (r: Outcome)
      requires Valid() && ReadRun(args) == Some(l) && l.names != []
      requires Owned(l.names[0]).Of(scope) && LabelValue(l.labels, CLUSTER_KEY) == NodeCluster(Owned(l.names[0]))
      requires At(world, l.names[0]).None? ==> watch(Placed(world, l, false)) && watch(Placed(world, l, true))
      modifies this`world, this`trace
      ensures Valid()
      ensures r.Pass? ==> At(old(world), l.names[0]).None? && world == Placed(old(world), l, true)
      ensures r.Fail? ==>
        || world == old(world)
        || (At(old(world), l.names[0]).None? && (world == Placed(old(world), l, false) || world == Placed(old(world), l, true)))
      ensures r.Fail? ==> r.error == CliFailed
    {
      var launch := ReadRun(args).value;
      if launch.names[0] in world.containers {
        return Fail(CliFailed);
      }
      var happens: bool, boots: bool, ok: bool := *, *, *;
      if !happens {
        return Fail(CliFailed);
      }
      Now();
      PlacedKept(scope, domain, world, launch, boots);
      Become(Placed(world, launch, boots));
      r := if boots && ok then Pass else Fail(CliFailed);
    }

    /** A foreground `container run` of a one-shot container; the result is what it prints. */
    method RunOnce(args: seq<string>, ghost l: Launch) returns (r: Result<string>)
      requires Valid() && ReadRun(args) == Some(l) && l.names != []
      requires Owned(l.names[0]) == Helper(scope) && LabelValue(l.labels, CLUSTER_KEY) == None
      requires NamedVolume(l.volumes).Some? ==> OwnedVolume(NamedVolume(l.volumes).value).Of(scope)
      requires forall content, answers {:trigger OneShot(world, args, l, content, answers)} ::
                 content == Torn || content == Left(args) ==> watch(OneShot(world, args, l, content, answers))
      modifies this`world, this`trace
      ensures Valid()
      ensures r.Ok? ==> world == OneShot(old(world), args, l, Left(args), r.value != "")
      ensures r.Err? ==>
        || world == old(world)
        || world == OneShot(old(world), args, l, Torn, false) || world == OneShot(old(world), args, l, Left(args), false)
    {
      var launch := ReadRun(args).value;
      if launch.names[0] in world.containers {
        return Err(CliFailed);
      }
      var happens: bool, ok: bool, torn: bool, out: string := *, *, *, *;
      if !happens {
        return Err(CliFailed);
      }
      Now();
      var content := if torn && !ok then Torn else Left(args);
      OneShotKept(scope, domain, world, args, launch, content, ok && out != "");
      Become(OneShot(world, args, launch, content, ok && out != ""));
      r := if ok then Ok(out) else Err(CliFailed);
    }

    /** `container stop`; a container that is not there counts as stopped. */
    method Stop(id: string) returns (r: Outcome)
      requires Valid() && Owned(id).Of(scope) && watch(Stopped(world, id))
      modifies this`world, this`trace
      ensures Valid()
      ensures r.Pass? ==> world == Stopped(old(world), id)
      ensures r.Fail? ==> world == old(world) || world == Stopped(old(world), id)
      ensures r.Fail? ==> r.error == CliFailed
    {
      if id !in world.containers {
        return Pass;
      }
      var happens: bool, ok: bool := *, *;
      if !happens {
        return Fail(CliFailed);
      }
      Now();
      StoppedKept(scope, domain, world, id);
      Become(Stopped(world, id));
      r := if ok then Pass else Fail(CliFailed);
    }

    /** `container start`; unlike stop, a container that is not there is an error. */
    method Start(id: string) returns (r: Outcome)
      requires Valid() && Owned(id).Of(scope) && watch(Started(world, id))
      modifies this`world, this`trace
      ensures Valid()
      ensures r.Pass? ==> At(old(world), id).Some? && world == Started(old(world), id)
      ensures r.Fail? ==> world == old(world) || world == Started(old(world), id)
      ensures r.Fail? ==> r.error == CliFailed
    {
      var happens: bool, ok: bool := *, *;
      if id !in world.containers || !happens {
        return Fail(CliFailed);
      }
      Now();
      StartedKept(scope, domain, world, id);
      Become(Started(world, id));
      r := if ok then Pass else Fail(CliFailed);
    }

    /** `container rm`; a container that is not there counts as removed. */
    method Remove(id: string) returns (r: Outcome)
      requires Valid() && Owned(id).Of(scope) && watch(Removed(world, id))
      modifies this`world, this`trace
      ensures Valid()
      ensures r.Pass? ==> world == Removed(old(world), id)
      ensures r.Fail? ==> world == old(world) || world == Removed(old(world), id)
    {
      if id !in world.containers {
        assert Removed(world, id) == world;
        return Pass;
      }
      var happens: bool, ok: bool := *, *;
      if !happens {
        return Fail(CliFailed);
      }
      Now();
      RemovedKept(scope, domain, world, id);
      Become(Removed(world, id));
      r := if ok then Pass else Fail(CliFailed);
    }

    /** `container exec`, which needs the container up. */
    method Exec(id: string, cmd: GuestCommand) returns (r: Outcome)
      requires Valid() && Owned(id).Of(scope) && watch(Ran(world, id, cmd))
      requires cmd in FORWARDING ==> Owned(id).Node? && Owned(id).role.IsK3s()
      modifies this`world, this`trace
      ensures Valid()
      ensures r.Pass? ==> Up(old(world), id) && world == Ran(old(world), id, cmd)
      ensures r.Fail? ==> world == old(world) || world == Ran(old(world), id, cmd)
      ensures r.Fail? ==> r.error == CliFailed
    {
      var happens: bool, ok: bool := *, *;
      if !Up(world, id) || !happens {
        return Fail(CliFailed);
      }
      Now();
      RanKept(scope, domain, world, id, cmd);
      Become(Ran(world, id, cmd));
      r := if ok then Pass else Fail(CliFailed);
    }

    /** The exec of k3sTokenRotateExecArgs: a running server reseals the cluster's bootstrap
        data as the command says. */
    method TellToken(id: string, args: seq<string>) returns (r: Outcome)
      requires Valid() && Owned(id).Of(scope) && watch(Retold(world, id, args))
      modifies this`world, this`trace
      ensures Valid()
      ensures r.Pass? ==> Up(old(world), id) && world == Retold(old(world), id, args)
      ensures r.Fail? ==> world == old(world) || world == Retold(old(world), id, args)
    {
      var happens: bool, ok: bool := *, *;
      if !Up(world, id) || !happens {
        return Fail(CliFailed);
      }
      Now();
      RetoldKept(scope, domain, world, id, args);
      Become(Retold(world, id, args));
      r := if ok then Pass else Fail(CliFailed);
    }

    /** One exec of enableIPForward, in a phase q of the operation that it cannot end. */
    method Forward(id: string, cmd: GuestCommand, ghost w0: World, ghost q: World -> bool) returns (r: Outcome)
      requires Valid() && Owned(id).Of(scope) && Owned(id).Node? && Owned(id).role.IsK3s()
      requires q(world) && Implies(q, watch) && Steady(q, id) && OnlyRan(w0, world, id)
      modifies this`world, this`trace
      ensures Valid() && q(world)
      ensures OnlyRan(w0, world, id)
      ensures r.Pass? ==> Up(world, id) && At(world, id).value.did == At(old(world), id).value.did + {cmd}
      ensures r.Fail? ==> r.error == CliFailed
    {
      OnlyRanMore(w0, world, id, cmd);
      r := Exec(id, cmd);
    }

    /** enableIPForward: only ever run on k3s nodes. */
    method EnableIPForward(id: string, ghost q: World -> bool) returns (r: Outcome)
      requires Valid() && Owned(id).Of(scope) && Owned(id).Node? && Owned(id).role.IsK3s()
      requires q(world) && Implies(q, watch) && Steady(q, id)
      modifies this`world, this`trace
      ensures Valid() && q(world)
      ensures OnlyRan(old(world), world, id)
      ensures r.Pass? ==> Up(world, id) && Armed(world, id)
      ensures r.Fail? ==> r.error == CliFailed
    {
      ghost var w0 := world;
      OnlyRanSelf(w0, id);
      :- Forward(id, Remount, w0, q);
      :- Forward(id, ShareRoot, w0, q);
      :- Forward(id, NoOffload, w0, q);
      :- Forward(id, IPForward, w0, q);
      r := Pass;
    }

    /** inspectIPv4 and waitForIPv4: only a running container has an address. */
    method InspectIPv4(id: string) returns (r: Result<Addr>)
      ensures r.Ok? ==> Up(world, id) && r.value == At(world, id).value.addr
      ensures r.Err? ==> r.error == CliFailed
    {
      var found: bool := *;
      if !Up(world, id) || !found {
        return Err(CliFailed);
      }
      r := Ok(world.containers[id].addr);
    }

    /** A wait that ends well or times out, and changes nothing. */
    method Await() returns (r: Outcome)
      ensures r.Fail? ==> r.error == CliFailed
    {
      var ok: bool := *;
      r := if ok then Pass else Fail(CliFailed);
    }

    /** waitForReady: meanwhile k3s may write its kubeconfig through the mount, and the wait ends
        well only if there is one that is not empty. */
    method AwaitKubeconfig(path: string) returns (r: Outcome)
      requires Valid() && Under(path, world.root, scope) && path != StatePath(world.root, scope)
      requires forall text :: watch(Written(world, path, Page(text)))
      modifies this`world, this`trace
      ensures Valid()
      ensures world == old(world) || exists text :: world == Written(old(world), path, Page(text))
      ensures r.Pass? ==> FileAt(world, path).Some? && FileAt(world, path) != Some(Page(""))
      ensures r.Fail? ==> r.error == CliFailed
    {
      var lands: bool, text: string, ok: bool := *, *, *;
      if lands {
        Now();
        WrittenKept(scope, domain, world, path, Page(text));
        Become(Written(world, path, Page(text)));
      }
      if !ok || path !in world.files || world.files[path] == Page("") {
        return Fail(CliFailed);
      }
      r := Pass;
    }

    /** os.ReadFile of a text. */
    method ReadPage(path: string) returns (r: Result<string>)
      ensures r.Ok? ==> FileAt(world, path) == Some(Page(r.value))
      ensures r.Err? ==> r.error == CliFailed
    {
      var ok: bool := *;
      if !ok || path !in world.files || !world.files[path].Page? {
        return Err(CliFailed);
      }
      r := Ok(world.files[path].text);
    }

    /** waitNodeRegisteredReady. */
    method AwaitRegistered(id: string) returns (r: Outcome)
      requires Valid() && Owned(id).Of(scope) && watch(Readied(world, id, true))
      modifies this`world, this`trace
      ensures Valid()
      ensures r.Pass? ==> Up(old(world), id) && world == Readied(old(world), id, true)
      ensures r.Fail? ==> world == old(world)
    {
      var ok: bool := *;
      if !Up(world, id) || !ok {
        return Fail(CliFailed);
      }
      Now();
      ReadiedKept(scope, domain, world, id, true);
      Become(Readied(world, id, true));
      r := Pass;
    }

    /** kubectl delete node, best effort: the node may stop being Ready. */
    method KubectlDelete(id: string)
      requires Valid() && Owned(id).Of(scope) && watch(Readied(world, id, false))
      modifies this`world, this`trace
      ensures Valid()
      ensures world == old(world) || world == Readied(old(world), id, false)
    {
      var happens: bool := *;
      if happens {
        Now();
        ReadiedKept(scope, domain, world, id, false);
        Become(Readied(world, id, false));
      }
    }

    /** volumeExists. */
    method VolumeExists(v: string) returns (r: Result<bool>)
      ensures r.Ok? ==> r.value == Vol(world, v).Some?
      ensures r.Err? ==> r.error == CliFailed
    {
      var ok: bool := *;
      r := if ok then Ok(v in world.volumes) else Err(CliFailed);
    }

    /** volumeCreate. A name in use is refused. */
    method VolumeCreate(v: string, labels: seq<string>) returns (r: Outcome)
      requires Valid() && OwnedVolume(v).Of(scope) && LabelValue(labels, CLUSTER_KEY) == NodeCluster(OwnedVolume(v))
      requires Vol(world, v).None? ==> watch(VolumeMade(world, v, labels))
      modifies this`world, this`trace
      ensures Valid()
      ensures r.Pass? ==> Vol(old(world), v).None? && world == VolumeMade(old(world), v, labels)
      ensures r.Fail? ==> world == old(world) || (Vol(old(world), v).None? && world == VolumeMade(old(world), v, labels))
      ensures r.Fail? ==> r.error == CliFailed
    {
      var happens: bool, ok: bool := *, *;
      if v in world.volumes || !happens {
        return Fail(CliFailed);
      }
      Now();
      VolumeMadeKept(scope, domain, world, v, labels);
      Become(VolumeMade(world, v, labels));
      r := if ok then Pass else Fail(CliFailed);
    }

    /** volumeDelete; a volume that is not there counts as deleted. */
    method VolumeDelete(v: string) returns (r: Outcome)
      requires Valid() && OwnedVolume(v).Of(scope) && watch(VolumeGone(world, v))
      modifies this`world, this`trace
      ensures Valid()
      ensures r.Pass? ==> world == VolumeGone(old(world), v)
      ensures r.Fail? ==> world == old(world) || world == VolumeGone(old(world), v)
    {
      if v !in world.volumes {
        assert VolumeGone(world, v) == world;
        return Pass;
      }
      var happens: bool, ok: bool := *, *;
      if !happens {
        return Fail(CliFailed);
      }
      Now();
      VolumeGoneKept(scope, domain, world, v);
      Become(VolumeGone(world, v));
      r := if ok then Pass else Fail(CliFailed);
    }

    /** `container list --all`: every container with its cluster label. */
    method ListContainers() returns (r: Result<seq<Item>>)
      ensures r.Ok? ==> forall item :: item in r.value <==> At(world, item.name).Some? && At(world, item.name).value.cluster == item.cluster
    {
      var ok: bool := *;
      if !ok {
        return Err(CliFailed);
      }
      var ids, items: seq<Item> := world.containers.Keys, [];
      while ids != {}
        invariant ids <= world.containers.Keys
        invariant forall item :: item in items <==>
          At(world, item.name).Some? && At(world, item.name).value.cluster == item.cluster && item.name !in ids
      {
        var id :| id in ids;
        items := items + [Item(id, world.containers[id].cluster)];
        ids := ids - {id};
      }
      r := Ok(items);
    }

    /** `container volume list`: every volume with its cluster label. */
    method ListVolumes() returns (r: Result<seq<Item>>)
      ensures r.Ok? ==> forall item :: item in r.value <==> Vol(world, item.name).Some? && Vol(world, item.name).value.cluster == item.cluster
    {
      var ok: bool := *;
      if !ok {
        return Err(CliFailed);
      }
      var names, items: seq<Item> := world.volumes.Keys, [];
      while names != {}
        invariant names <= world.volumes.Keys
        invariant forall item :: item in items <==>
          Vol(world, item.name).Some? && Vol(world, item.name).value.cluster == item.cluster && item.name !in names
      {
        var v :| v in names;
        items := items + [Item(v, world.volumes[v].cluster)];
        names := names - {v};
      }
      r := Ok(items);
    }

    /** LoadState. A file that is not there is told apart from one that cannot be read. */
    method LoadState(c: string) returns (r: Result<ClusterState>)
      ensures r.Ok? ==> SavedOf(world, c) == Present(r.value)
      ensures r == Err(NotFound) <==> SavedOf(world, c).Missing?
      ensures r.Err? ==> r.error == NotFound || r.error == CliFailed
    {
      var ok: bool := *;
      match SavedOf(world, c) {
        case Missing => r := Err(NotFound);
        case Corrupt => r := Err(CliFailed);
        case Present(st) => r := if ok then Ok(st) else Err(CliFailed);
      }
    }

    /** Writing a file of the cluster; a failed write may leave it unreadable. */
    method Write(path: string, file: File) returns (r: Outcome)
      requires Valid() && Under(path, world.root, scope) && TidyFile(file, world.clock + 1)
      requires path == StatePath(world.root, scope) ==> (file.Record? ==> Shape(file.state, scope, domain))
      requires watch(Written(world, path, file)) && watch(Written(world, path, Junk))
      modifies this`world, this`trace
      ensures Valid()
      ensures r.Pass? ==> world == Written(old(world), path, file)
      ensures r.Fail? ==> world == old(world) || world == Written(old(world), path, file) || world == Written(old(world), path, Junk)
      ensures r.Fail? ==> r.error == CliFailed
    {
      var happens: bool, ok: bool, torn: bool := *, *, *;
      if !happens {
        return Fail(CliFailed);
      }
      Now();
      var wrote := if torn && !ok then Junk else file;
      WrittenKept(scope, domain, world, path, wrote);
      Become(Written(world, path, wrote));
      r := if ok then Pass else Fail(CliFailed);
    }

    /** saveState. */
    method SaveState(st: ClusterState) returns (r: Outcome)
      requires Valid() && st.clusterName == scope && Shape(st, scope, domain)
      requires watch(Written(world, StatePath(world.root, scope), Record(st)))
      requires watch(Written(world, StatePath(world.root, scope), Junk))
      modifies this`world, this`trace
      ensures Valid()
      ensures
        var path := StatePath(old(world).root, scope);
        && (r.Pass? ==> world == Written(old(world), path, Record(st)) && SavedOf(world, scope) == Present(st))
        && (r.Fail? ==> world == old(world) || world == Written(old(world), path, Record(st)) || world == Written(old(world), path, Junk))
      ensures r.Fail? ==> r.error == CliFailed
    {
      var path := StatePath(world.root, st.clusterName);
      InUnder(world.root, st.clusterName, "state.json");
      r := Write(path, Record(st));
    }

    /** os.RemoveAll of the cluster's state directory; a failed removal may leave any part of
        it behind. */
    method RemoveDir(c: string) returns (r: Outcome)
      requires Valid() && c == scope && forall w :: watch(w)
      modifies this`world, this`trace
      ensures Valid()
      ensures world.containers == old(world).containers && world.volumes == old(world).volumes && world.root == old(world).root
      ensures r.Pass? ==> world == DirGone(old(world), c)
    {
      var gone: set<string>, ok: bool := *, *;
      Now();
      if ok {
        DirGoneKept(c, domain, world);
        Become(DirGone(world, c));
        return Pass;
      }
      var left := world.(files := map path | path in world.files && !(Under(path, world.root, c) && path in gone) :: world.files[path]);
      assert forall path :: FileAt(left, path) == if Under(path, world.root, c) && path in gone then None else FileAt(world, path);
      FilesKept(c, domain, world, left);
      Become(left);
      r := Fail(CliFailed);
    }
  }
}
