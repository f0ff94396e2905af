/** Launching and recreating one k3s node (provider/apple/create.go, day2.go). */
module Day2 {
  import opened Types
  import opened Names
  import opened Recipes
  import opened Records
  import opened World
  import opened Runtime
  import opened Fidelity
  import opened Launches

  /** A node the launcher may run for cluster c: named and labelled as its own, on an image. */
  ghost predicate Launchable(cfg: ClusterConfig, node: NodeConfig, c: string, d: string) {
    && CleanText(c) && cfg.name == c && PlainImage(cfg.image)
    && node.role.IsK3s() && Numbered(InfoOf(node, d, ""), c, d)
  }

  /** Running this launch in phase q stays in phase q. */
  ghost predicate MayPlace(q: World -> bool, w: World, l: Launch) {
    l.names != [] && (At(w, l.names[0]).None? ==> q(Placed(w, l, false)) && q(Placed(w, l, true)))
  }

  lemma LaunchableReads(cfg: ClusterConfig, node: NodeConfig, url: string, c: string, d: string, kubeDir: string)
    requires Launchable(cfg, node, c, d)
    ensures
      var l, id := NodeLaunch(cfg, node, url, d, kubeDir), NodeFQDN(node.name, d);
      && ReadRun(NodeRunArgs(cfg, node, url, d, kubeDir)) == Some(l)
      && l.names == [id] && Owned(id) == Node(c, node.role) && LabelValue(l.labels, CLUSTER_KEY) == Some(c)
      && NamedVolume(l.volumes) == Some(NodeVolumeName(c, node.name))
  {
    NodeReads(cfg, InfoOf(node, d, ""), url, d, kubeDir);
  }

  /** launchNode. */
  method LaunchNode(p: Provisioner, c: string, cfg: ClusterConfig, node: NodeConfig, url: string, kubeDir: string, ghost q: World -> bool)
    returns (r: Result<NodeInfo>)
    requires p.Valid() && p.scope == c && Launchable(cfg, node, c, p.domain)
    requires q(p.world) && Implies(q, p.watch) && MayPlace(q, p.world, NodeLaunch(cfg, node, url, p.domain, kubeDir))
    modifies p`world, p`trace
    ensures p.Valid() && q(p.world)
    ensures
      var l := NodeLaunch(cfg, node, url, p.domain, kubeDir);
      && l.names == [NodeFQDN(node.name, p.domain)]
      && (r.Ok? ==>
            && At(old(p.world), l.names[0]).None? && p.world == Placed(old(p.world), l, true)
            && r.value == InfoOf(node, p.domain, At(p.world, NodeFQDN(node.name, p.domain)).value.addr))
      && (r.Err? ==> p.world == old(p.world) || p.world == Placed(old(p.world), l, false) || p.world == Placed(old(p.world), l, true))
    ensures r.Err? ==> r.error == CliFailed
  {
    LaunchableReads(cfg, node, url, c, p.domain, kubeDir);
    var args := BuildRunArgs(cfg, node, url, p.domain, kubeDir);
    ghost var l := NodeLaunch(cfg, node, url, p.domain, kubeDir);
    var launched := p.Run(args, l);
    if launched.Fail? {
      return Err(launched.error);
    }
    var id := NodeFQDN(node.name, p.domain);
    var addr :- p.InspectIPv4(id);
    r := Ok(InfoOf(node, p.domain, addr));
  }

  /** Replacing container id by launch l, step by step, stays in phase q. */
  ghost predicate MayRecreate(q: World -> bool, id: string, l: Launch) {
    && l.names == [id]
    && Steady(q, id)
    && (forall w {:trigger Stopped(w, id)} :: q(w) ==> q(Stopped(w, id)))
    && (forall w {:trigger Removed(w, id)} :: q(w) ==> q(Removed(w, id)))
    && (forall w, boots {:trigger Placed(w, l, boots)} :: q(w) && At(w, id).None? ==> q(Placed(w, l, boots)))
  }

  /** The container is this launch, booted on the present incarnation of its volume and set up. */
  ghost predicate RunsAs(w: World, id: string, l: Launch) {
    && Up(w, id) && Armed(w, id) && At(w, id).value.launch == l
    && Mounted(w, At(w, id).value, NamedVolume(l.volumes))
  }

  ghost predicate HasVolume(w: World, l: Launch) {
    NamedVolume(l.volumes).Some? && Vol(w, NamedVolume(l.volumes).value).Some?
  }

  lemma PlacedRunsAs(w: World, w': World, id: string, l: Launch)
    requires l.names == [id] && OnlyRan(Placed(w, l, true), w', id) && Up(w', id) && Armed(w', id)
    ensures HasVolume(w, l) ==> RunsAs(w', id, l)
    ensures w'.volumes == w.volumes && w'.files == w.files
    ensures Up(w', id) && Armed(w', id) && At(w', id).value.launch == l
  {
    assert forall v :: Vol(w', v) == Vol(w, v);
  }

  /** Only container id differs. */
  ghost predicate OnlyContainer(w0: World, w: World, id: string) {
    && w.volumes == w0.volumes && w.files == w0.files && w.root == w0.root && w.retold == w0.retold
    && forall x :: x != id ==> At(w, x) == At(w0, x)
  }

  lemma OnlyContainerSelf(w: World, id: string)
    ensures OnlyContainer(w, w, id)
  {
  }

  lemma OnlyContainerMore(w0: World, w: World, w': World, id: string)
    requires OnlyContainer(w0, w, id) && OnlyContainer(w, w', id)
    ensures OnlyContainer(w0, w', id)
  {
  }

  lemma OnlyContainerSteps(w: World, id: string, cmd: GuestCommand)
    ensures OnlyContainer(w, Ran(w, id, cmd), id) && OnlyContainer(w, Stopped(w, id), id) && OnlyContainer(w, Removed(w, id), id)
  {
    assert forall x :: At(Removed(w, id), x) == if x == id then None else At(w, x);
  }

  lemma OnlyContainerPlaced(w: World, l: Launch, boots: bool, id: string)
    requires l.names == [id]
    ensures OnlyContainer(w, Placed(w, l, boots), id)
  {
  }

  lemma OnlyContainerRan(w: World, w': World, id: string)
    requires OnlyRan(w, w', id)
    ensures OnlyContainer(w, w', id)
  {
  }

  /** The steps of taking a container down, from any world of the phase. */
  lemma DownSteps(p: World -> bool, q: World -> bool, w0: World, w: World, id: string, l: Launch)
    requires Implies(q, p) && MayRecreate(q, id, l) && q(w) && OnlyContainer(w0, w, id)
    ensures p(Ran(w, id, ClearCerts)) && q(Ran(w, id, ClearCerts)) && OnlyContainer(w0, Ran(w, id, ClearCerts), id)
    ensures p(Stopped(w, id)) && q(Stopped(w, id)) && OnlyContainer(w0, Stopped(w, id), id)
    ensures p(Removed(w, id)) && q(Removed(w, id)) && OnlyContainer(w0, Removed(w, id), id)
    ensures At(Removed(w, id), id).None?
  {
    OnlyContainerSteps(w, id, ClearCerts);
    OnlyContainerMore(w0, w, Ran(w, id, ClearCerts), id);
    OnlyContainerMore(w0, w, Stopped(w, id), id);
    OnlyContainerMore(w0, w, Removed(w, id), id);
  }

  /** Clearing the certificates bound to the old address, then stopping and removing the
      container; the first needs the container up. */
  method TakeDown(p: Provisioner, id: string, ghost q: World -> bool, ghost l: Launch) returns (r: Outcome)
    requires p.Valid() && Owned(id).Of(p.scope) && q(p.world) && Implies(q, p.watch) && MayRecreate(q, id, l)
    modifies p`world, p`trace
    ensures p.Valid() && q(p.world) && OnlyContainer(old(p.world), p.world, id)
    ensures r.Pass? ==> Up(old(p.world), id) && At(p.world, id).None?
  {
    ghost var w0 := p.world;
    OnlyContainerSelf(w0, id);
    assert ClearCerts !in FORWARDING;
    hide *;
    DownSteps(p.watch, q, w0, p.world, id, l);
    r := p.Exec(id, ClearCerts);
    if r.Fail? {
      return;
    }
    DownSteps(p.watch, q, w0, p.world, id, l);
    r := p.Stop(id);
    if r.Fail? {
      return;
    }
    DownSteps(p.watch, q, w0, p.world, id, l);
    r := p.Remove(id);
  }

  lemma MayPlaceAgain(q: World -> bool, w: World, id: string, l: Launch)
    requires MayRecreate(q, id, l) && q(w)
    ensures MayPlace(q, w, l) && Steady(q, id)
  {
  }

  /** recreateK3sNode: the container goes, its volume stays, the new container mounts it. */
  method RecreateNode(p: Provisioner, c: string, cfg: ClusterConfig, node: NodeConfig, url: string, ghost q: World -> bool)
    returns (r: Result<NodeInfo>)
    requires p.Valid() && p.scope == c && Launchable(cfg, node, c, p.domain)
    requires q(p.world) && Implies(q, p.watch)
    requires MayRecreate(q, NodeFQDN(node.name, p.domain), NodeLaunch(cfg, node, url, p.domain, ""))
    modifies p`world, p`trace
    ensures p.Valid() && q(p.world)
    ensures OnlyContainer(old(p.world), p.world, NodeFQDN(node.name, p.domain))
    ensures r.Ok? ==>
      && Recreated(old(p.world), p.world, NodeFQDN(node.name, p.domain), NodeLaunch(cfg, node, url, p.domain, ""))
      && Bare(r.value) == Bare(InfoOf(node, p.domain, ""))
  {
    hide *;
    var id := NodeFQDN(node.name, p.domain);
    ghost var l, w0 := NodeLaunch(cfg, node, url, p.domain, ""), p.world;
    OwnNode(cfg, node, url, c, p.domain);
    var gone := TakeDown(p, id, q, l);
    if gone.Fail? {
      return Err(gone.error);
    }
    MayPlaceAgain(q, p.world, id, l);
    r := BringUp(p, c, cfg, node, url, q, w0);
  }

  lemma OwnNode(cfg: ClusterConfig, node: NodeConfig, url: string, c: string, d: string)
    requires Launchable(cfg, node, c, d)
    ensures Owned(NodeFQDN(node.name, d)).Of(c)
  {
    LaunchableReads(cfg, node, url, c, d, "");
  }

  /** The container is launch l, set up, and on the present incarnation of its volume if that
      was there. */
  ghost predicate Recreated(w0: World, w: World, id: string, l: Launch) {
    && Up(w, id) && Armed(w, id) && At(w, id).value.launch == l
    && (HasVolume(w0, l) ==> Mounted(w, At(w, id).value, NamedVolume(l.volumes)))
  }

  method BringUp(p: Provisioner, c: string, cfg: ClusterConfig, node: NodeConfig, url: string, ghost q: World -> bool, ghost w0: World)
    returns (r: Result<NodeInfo>)
    requires p.Valid() && p.scope == c && Launchable(cfg, node, c, p.domain)
    requires q(p.world) && Implies(q, p.watch) && Steady(q, NodeFQDN(node.name, p.domain))
    requires MayPlace(q, p.world, NodeLaunch(cfg, node, url, p.domain, ""))
    requires OnlyContainer(w0, p.world, NodeFQDN(node.name, p.domain))
    modifies p`world, p`trace
    ensures p.Valid() && q(p.world)
    ensures OnlyContainer(w0, p.world, NodeFQDN(node.name, p.domain))
    ensures r.Ok? ==>
      && Recreated(w0, p.world, NodeFQDN(node.name, p.domain), NodeLaunch(cfg, node, url, p.domain, ""))
      && Bare(r.value) == Bare(InfoOf(node, p.domain, ""))
  {
    var id := NodeFQDN(node.name, p.domain);
    ghost var l, w := NodeLaunch(cfg, node, url, p.domain, ""), p.world;
    LaunchableReads(cfg, node, url, c, p.domain, "");
    LaunchedSteps(w0, w, id, l);
    hide *;
    r := LaunchNode(p, c, cfg, node, url, "", q);
    if r.Err? {
      return;
    }
    ghost var w1 := p.world;
    var armed := p.EnableIPForward(id, q);
    UpSteps(w0, w, w1, p.world, id, l);
    if armed.Fail? {
      return Err(armed.error);
    }
    SameInfo(r.value, node, p.domain, At(w1, id).value.addr);
  }

  lemma SameInfo(info: NodeInfo, node: NodeConfig, d: string, addr: Addr)
    requires info == InfoOf(node, d, addr)
    ensures Bare(info) == Bare(InfoOf(node, d, ""))
  {
  }

  lemma LaunchedSteps(w0: World, w: World, id: string, l: Launch)
    requires l.names == [id] && OnlyContainer(w0, w, id)
    ensures OnlyContainer(w0, Placed(w, l, false), id) && OnlyContainer(w0, Placed(w, l, true), id)
  {
    OnlyContainerPlaced(w, l, false, id);
    OnlyContainerPlaced(w, l, true, id);
    OnlyContainerMore(w0, w, Placed(w, l, false), id);
    OnlyContainerMore(w0, w, Placed(w, l, true), id);
  }

  lemma UpSteps(w0: World, w: World, w1: World, w': World, id: string, l: Launch)
    requires l.names == [id] && OnlyContainer(w0, w, id) && w1 == Placed(w, l, true) && OnlyRan(w1, w', id)
    ensures OnlyContainer(w0, w', id)
    ensures Up(w', id) && Armed(w', id) ==> Recreated(w0, w', id, l)
  {
    LaunchedSteps(w0, w, id, l);
    OnlyContainerRan(w1, w', id);
    OnlyContainerMore(w0, w1, w', id);
    assert forall v :: Vol(w', v) == Vol(w, v) == Vol(w0, v);
    if Up(w', id) && Armed(w', id) {
      PlacedRunsAs(w, w', id, l);
    }
  }

  // ---------------------------------------------------------------------------------------
  // Recreating again
  // ---------------------------------------------------------------------------------------

  /** The records pin the same image, token and endpoints. */
  predicate SamePins(a: ClusterState, b: ClusterState) {
    && a.clusterName == b.clusterName && ResolvedImage(a.image) == ResolvedImage(b.image) && a.network == b.network && a.token == b.token
    && a.datastoreEndpoint == b.datastoreEndpoint && a.datastoreImage == b.datastoreImage && a.serverURL == b.serverURL
  }

  /** Any number of recreations with the same pins issue the same vector, whatever addresses the
      node gets: each records of it what the next one launches. */
  lemma {:induction false} RecreatesAgree(states: seq<ClusterState>, infos: seq<NodeInfo>, tlsDir: string, d: string, k: nat)
    requires |states| == |infos| && k < |infos|
    requires forall j: nat | j < |infos| :: SamePins(states[0], states[j])
    requires forall j: nat | j + 1 < |infos| :: Bare(infos[j + 1]) == Bare(InfoOf(NodeConfigFromInfo(infos[j]), d, ""))
    ensures RecreatedArgs(states[k], infos[k], tlsDir, d) == RecreatedArgs(states[0], infos[0], tlsDir, d)
  {
    hide NodeRunArgs;
    hide ResolvedImage;
    if k > 0 {
      RecreatesAgree(states, infos, tlsDir, d, k - 1);
      SameNode(InfoOf(NodeConfigFromInfo(infos[k - 1]), d, ""), infos[k]);
      assert SamePins(states[0], states[k]) && SamePins(states[0], states[k - 1]);
    }
  }
}
