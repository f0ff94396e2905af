/** Membership changes on a running cluster (provider/apple/node_ops.go). */
module NodeOps {
  import opened Types
  import opened Names
  import opened Ordering
  import opened Numbering
  import opened Recipes
  import opened Meaning
  import opened Records
  import opened World
  import opened Runtime
  import opened Fidelity
  import opened Frames
  import opened Lifecycle
  import opened EtcdTLS
  import opened Launches
  import opened Day2
  import opened Bringup
  import opened Checks
  import opened LoadBalancer

  // ---------------------------------------------------------------------------------------
  // Joining nodes
  // ---------------------------------------------------------------------------------------

  /** The record with these nodes added. */
  function Plus(st: ClusterState, infos: seq<NodeInfo>): ClusterState {
    st.(nodes := st.nodes + infos)
  }

  /** A server loads the datastore's client keys from dir, or none if there is none. */
  ghost predicate Bundled(w: World, n: NodeInfo, dir: string) {
    n.role.Server? ==> At(w, n.id).Some? && KeyedBy(At(w, n.id).value.launch, NodeConfigFromInfo(n), dir)
  }

  /** The node is launched as the record says of it, a server with the client keys of dir. */
  ghost predicate Enlisted(w: World, n: NodeInfo, st: ClusterState, dir: string, d: string) {
    && At(w, n.id).Some? && Bundled(w, n, dir)
    && Serves(At(w, n.id).value.launch, st.clusterName, NodeConfigFromInfo(n), d, CommonIn(st))
  }

  /** The added nodes serve as recorded, servers with the client bundle that is on disk, if there is
      one, and the record with them is as faithful as it was without. */
  ghost predicate Joined(w0: World, w: World, st: ClusterState, infos: seq<NodeInfo>, d: string) {
    && (forall n | n in infos :: Serving(w, n) && Enlisted(w, n, st, ClientDir(w0, st.clusterName), d))
    && (Faithful(w0, st, d) ==> Faithful(w, Plus(st, infos), d))
  }

  /** The first nodes of a request, as launched. */
  ghost predicate FirstOf(infos: seq<NodeInfo>, nodes: seq<NodeConfig>, d: string) {
    |infos| <= |nodes| && forall k: nat | k < |infos| :: Bare(infos[k]) == Bare(InfoOf(nodes[k], d, "")) && |infos[k].ips| == 1
  }

  /** Only a new container differs. */
  ghost predicate OneMore(w: World, w': World, id: string) {
    && w'.volumes == w.volumes && w'.files == w.files && w'.root == w.root
    && At(w, id).None? && (forall x :: x != id ==> At(w', x) == At(w, x))
  }

  lemma OneMoreFaithful(w: World, w': World, st: ClusterState, n: NodeInfo, d: string)
    requires OneMore(w, w', n.id) && Faithful(w, st, d) && n.role.IsK3s()
    requires InPlace(w', n, st, d)
    ensures Faithful(w', st.(nodes := st.nodes + [n]), d)
  {
    hide InPlace;
    var st' := st.(nodes := st.nodes + [n]);
    RolesAfter(st.nodes, n, Datastore);
    InPlaceThere(w', n, st, d);
    InPlaceBeside(w', w', st, st', n, d);
    forall m | m in st.nodes
      ensures InPlace(w', m, st', d)
    {
      InPlaceThere(w, m, st, d);
      InPlaceBeside(w, w', st, st', m, d);
    }
  }

  lemma InPlaceThere(w: World, n: NodeInfo, st: ClusterState, d: string)
    requires InPlace(w, n, st, d)
    ensures At(w, n.id).Some?
  {
  }

  lemma JoinedMore(w0: World, w: World, w': World, st: ClusterState, infos: seq<NodeInfo>, n: NodeInfo, d: string)
    requires Joined(w0, w, st, infos, d) && OneMore(w, w', n.id) && n.role.IsK3s() && Serving(w', n)
    requires Enlisted(w', n, st, ClientDir(w0, st.clusterName), d)
    requires Faithful(w0, st, d) ==> InPlace(w', n, Plus(st, infos), d)
    ensures Joined(w0, w', st, infos + [n], d)
  {
    hide Serves;
    hide KeyedBy;
    forall m | m in infos
      ensures Serving(w', m) && Enlisted(w', m, st, ClientDir(w0, st.clusterName), d)
    {
      assert Serving(w, m) && m.id != n.id && Enlisted(w, m, st, ClientDir(w0, st.clusterName), d);
    }
    if Faithful(w0, st, d) {
      OneMoreFaithful(w, w', Plus(st, infos), n, d);
      assert st.nodes + infos + [n] == st.nodes + (infos + [n]);
    }
  }

  lemma FirstOfMore(infos: seq<NodeInfo>, nodes: seq<NodeConfig>, d: string, addr: Addr)
    requires FirstOf(infos, nodes, d) && |infos| < |nodes|
    ensures FirstOf(infos + [InfoOf(nodes[|infos|], d, addr)], nodes, d)
  {
  }

  /** The operation under way adds nodes. */
  ghost predicate Stage(p: Provisioner, c: string, w0: World, spare: string)
    reads p`watch, p`scope
  {
    p.watch == AddingFrom(w0, c, spare) && p.scope == c && CleanText(c) && !Keeps(Owned(spare), STATEFUL)
  }

  /** The configuration names the record's image, token and endpoints. */
  ghost predicate Joins(cfg: ClusterConfig, w0: World, st: ClusterState, c: string, node: NodeConfig) {
    && cfg.name == c == st.clusterName && cfg.image == ResolvedImage(st.image) && PlainImage(cfg.image) && cfg.token == st.token
    && cfg.network == st.network && cfg.manifests == []
    && (node.role.Server? ==> cfg.datastoreEndpoint == st.datastoreEndpoint && cfg.datastoreTLSDir == ClientDir(w0, c) && cfg.caDir == "")
  }

  lemma MayJoin(p: Provisioner, c: string, cfg: ClusterConfig, node: NodeConfig, url: string, w0: World, spare: string)
    requires p.Valid() && Stage(p, c, w0, spare) && Launchable(cfg, node, c, p.domain)
    requires FreshVolume(p.world, NodeVolumeName(c, node.name), w0.clock)
    ensures p.watch(p.world) && Implies(p.watch, p.watch) && MayPlace(p.watch, p.world, NodeLaunch(cfg, node, url, p.domain, ""))
    ensures Owned(NodeFQDN(node.name, p.domain)) == Node(c, node.role) && p.scope == c
    ensures Owned(NodeFQDN(node.name, p.domain)).Of(p.scope) && Owned(NodeFQDN(node.name, p.domain)).role.IsK3s()
    ensures At(p.world, NodeFQDN(node.name, p.domain)).None? ==> Steady(p.watch, NodeFQDN(node.name, p.domain))
  {
    p.Now();
    var l, id := NodeLaunch(cfg, node, url, p.domain, ""), NodeFQDN(node.name, p.domain);
    LaunchableReads(cfg, node, url, c, p.domain, "");
    if At(p.world, id).None? {
      AddingPlaced(w0, p.world, c, spare, l, false);
      AddingPlaced(w0, p.world, c, spare, l, true);
      NotThereBefore(w0, p.world, c, spare, id);
      AddingSteady(w0, c, spare, id);
    }
  }

  lemma NotThereBefore(w0: World, w: World, c: string, spare: string, id: string)
    requires Adding(w0, w, c, spare) && At(w, id).None?
    ensures At(w0, id).None?
  {
  }

  /** launchNode and enableIPForward for one new node. */
  method Join(p: Provisioner, c: string, cfg: ClusterConfig, node: NodeConfig, url: string, ghost w0: World, ghost spare: string)
    returns (r: Result<NodeInfo>)
    requires p.Valid() && Stage(p, c, w0, spare) && Launchable(cfg, node, c, p.domain)
    requires FreshVolume(p.world, NodeVolumeName(c, node.name), w0.clock)
    modifies p`world, p`trace
    ensures p.Valid()
    ensures r.Ok? ==>
      var id, l := NodeFQDN(node.name, p.domain), NodeLaunch(cfg, node, url, p.domain, "");
      && OneMore(old(p.world), p.world, id) && l.names == [id]
      && Recreated(old(p.world), p.world, id, l)
      && r.value == InfoOf(node, p.domain, At(p.world, id).value.addr)
    ensures r.Err? ==> r.error == CliFailed
  {
    hide *;
    var id := NodeFQDN(node.name, p.domain);
    ghost var l, w := NodeLaunch(cfg, node, url, p.domain, ""), p.world;
    MayJoin(p, c, cfg, node, url, w0, spare);
    r := LaunchNode(p, c, cfg, node, url, "", p.watch);
    if r.Err? {
      return;
    }
    ghost var w1 := p.world;
    var armed := p.EnableIPForward(id, p.watch);
    if armed.Fail? {
      return Err(armed.error);
    }
    NowJoined(w, w1, p.world, id, l);
  }

  lemma NowJoined(w: World, w1: World, w': World, id: string, l: Launch)
    requires l.names == [id] && At(w, id).None? && w1 == Placed(w, l, true) && OnlyRan(w1, w', id) && Up(w', id) && Armed(w', id)
    ensures OneMore(w, w', id) && Recreated(w, w', id, l) && At(w', id).Some? && At(w', id).value.addr == At(w1, id).value.addr
  {
    OnlyContainerSelf(w, id);
    UpSteps(w, w, w1, w', id, l);
    SameAddr(w1, w', id);
  }

  lemma SameAddr(w: World, w': World, id: string)
    requires OnlyRan(w, w', id) && At(w, id).Some?
    ensures At(w', id).Some? && At(w', id).value.addr == At(w, id).value.addr
  {
  }

  /** A node that joined is what the record says of it. */
  lemma JoinedInPlace(w0: World, w: World, w': World, cfg: ClusterConfig, node: NodeConfig, url: string, st: ClusterState, infos: seq<NodeInfo>,
                      c: string, d: string, addr: Addr)
    requires Launchable(cfg, node, c, d) && Joins(cfg, w0, st, c, node) && HostPath(w0.root) && w'.root == w0.root
    requires HasVolume(w, NodeLaunch(cfg, node, url, d, "")) && Recreated(w, w', NodeFQDN(node.name, d), NodeLaunch(cfg, node, url, d, ""))
    requires node.role.Agent? ==> url == st.serverURL
    requires node.role.Server? && Managed(Plus(st, infos)) ==> FileAt(w0, TLSDir(w0.root, c, CLIENT)).Some?
    ensures InPlace(w', InfoOf(node, d, addr), Plus(st, infos), d)
  {
    hide Suits;
    hide NodeLaunch;
    hide Numbered;
    hide NodeFQDN;
    JoinedSuits(w0, cfg, node, url, st, infos, c, d, addr);
  }

  lemma JoinedSuits(w0: World, cfg: ClusterConfig, node: NodeConfig, url: string, st: ClusterState, infos: seq<NodeInfo>, c: string, d: string, addr: Addr)
    requires Launchable(cfg, node, c, d) && Joins(cfg, w0, st, c, node) && HostPath(w0.root)
    requires node.role.Agent? ==> url == st.serverURL
    requires node.role.Server? && Managed(Plus(st, infos)) ==> FileAt(w0, TLSDir(w0.root, c, CLIENT)).Some?
    ensures
      var l, plus := NodeLaunch(cfg, node, url, d, ""), Plus(st, infos);
      && Suits(l, InfoOf(node, d, addr), plus, d, w0.root) && NamedVolume(l.volumes) == Some(NodeVolumeName(c, node.name))
      && (Managed(plus) && node.role.Server? ==> TLSSource(l.volumes) == Some(TLSDir(w0.root, c, CLIENT)))
  {
    hide Serves;
    hide KeyedBy;
    hide NodeLaunch;
    hide Numbered;
    hide NodeFQDN;
    hide TLSDir;
    hide RunsMember;
    hide RunsProxy;
    hide ReadRun;
    hide NodeRunArgs;
    hide Owned;
    hide LabelValue;
    hide TLSSource;
    hide HostPath;
    hide CleanText;
    hide ResolvedImage;
    var n := InfoOf(node, d, "");
    NodeReads(cfg, n, url, d, "");
    assert NodeConfigFromInfo(n) == node == NodeConfigFromInfo(InfoOf(node, d, addr));
    if node.role.Server? && Managed(Plus(st, infos)) {
      ClientPath(w0.root, c);
      ServerLaunchTLS(cfg, node, url, d, "");
      ServerKeyed(cfg, node, url, d, "");
    }
    ServesAlike(NodeLaunch(cfg, node, url, d, ""), c, node, d, CommonOf(cfg, url), CommonIn(Plus(st, infos)));
  }

  lemma JoinBundled(w0: World, w: World, w': World, cfg: ClusterConfig, node: NodeConfig, url: string, st: ClusterState, c: string, d: string, addr: Addr)
    requires Joins(cfg, w0, st, c, node) && HostPath(w0.root) && CleanText(c) && node.role.IsK3s()
    requires node.role.Agent? ==> url == st.serverURL
    requires Recreated(w, w', NodeFQDN(node.name, d), NodeLaunch(cfg, node, url, d, ""))
    ensures Enlisted(w', InfoOf(node, d, addr), st, ClientDir(w0, st.clusterName), d)
  {
    hide KeyedBy;
    hide Serves;
    hide NodeLaunch;
    NodeServes(cfg, node, url, d, "");
    ServesAlike(NodeLaunch(cfg, node, url, d, ""), c, node, d, CommonOf(cfg, url), CommonIn(st));
    assert NodeConfigFromInfo(InfoOf(node, d, addr)) == node;
    if node.role.Server? {
      ClientPath(w0.root, c);
      ServerKeyed(cfg, node, url, d, "");
      assert NodeConfigFromInfo(InfoOf(node, d, addr)) == node;
    }
  }

  /** What one more join needs and gives. */
  ghost predicate Joining(w0: World, w: World, c: string, nodes: seq<NodeConfig>, st: ClusterState, infos: seq<NodeInfo>, d: string) {
    && Joined(w0, w, st, infos, d) && FirstOf(infos, nodes, d)
    && FirstFresh(w, c, nodes, w0.clock, |nodes|)
    && HostPath(w0.root) && w.root == w0.root
    && (Faithful(w0, st, d) && Managed(st) ==> FileAt(w0, TLSDir(w0.root, c, CLIENT)).Some?)
  }

  ghost predicate Request(c: string, cfg: ClusterConfig, nodes: seq<NodeConfig>, url: string, w0: World, st: ClusterState, d: string) {
    && K3sNodes(nodes, c, d)
    && (forall n | n in nodes :: Joins(cfg, w0, st, c, n) && (n.role.Agent? ==> url == st.serverURL))
  }

  lemma RequestLaunches(c: string, cfg: ClusterConfig, nodes: seq<NodeConfig>, url: string, w0: World, st: ClusterState, d: string, i: nat)
    requires Request(c, cfg, nodes, url, w0, st, d) && i < |nodes|
    ensures Launchable(cfg, nodes[i], c, d) && Joins(cfg, w0, st, c, nodes[i]) && (nodes[i].role.Agent? ==> url == st.serverURL)
  {
    assert nodes[i] in nodes;
  }

  lemma JoiningMore(w0: World, w: World, w': World, c: string, cfg: ClusterConfig, nodes: seq<NodeConfig>, url: string, st: ClusterState,
                    infos: seq<NodeInfo>, d: string, addr: Addr)
    requires Joining(w0, w, c, nodes, st, infos, d) && Request(c, cfg, nodes, url, w0, st, d) && |infos| < |nodes|
    requires OneMore(w, w', NodeFQDN(nodes[|infos|].name, d))
    requires Recreated(w, w', NodeFQDN(nodes[|infos|].name, d), NodeLaunch(cfg, nodes[|infos|], url, d, ""))
    requires forall n | n in nodes :: !n.role.Datastore?
    ensures Joining(w0, w', c, nodes, st, infos + [InfoOf(nodes[|infos|], d, addr)], d)
  {
    hide Serves;
    hide KeyedBy;
    var node := nodes[|infos|];
    RequestLaunches(c, cfg, nodes, url, w0, st, d, |infos|);
    LaunchableReads(cfg, node, url, c, d, "");
    assert FreshVolume(w, NodeVolumeName(c, node.name), w0.clock);
    PlusManaged(st, infos, nodes, d);
    if Faithful(w0, st, d) {
      JoinedInPlace(w0, w, w', cfg, node, url, st, infos, c, d, addr);
    }
    JoinBundled(w0, w, w', cfg, node, url, st, c, d, addr);
    JoinedMore(w0, w, w', st, infos, InfoOf(node, d, addr), d);
    FirstOfMore(infos, nodes, d, addr);
    FreshStays(w, w', c, nodes, w0.clock);
  }

  lemma PlusManaged(st: ClusterState, infos: seq<NodeInfo>, nodes: seq<NodeConfig>, d: string)
    requires FirstOf(infos, nodes, d) && forall n | n in nodes :: !n.role.Datastore?
    ensures Managed(Plus(st, infos)) == Managed(st)
  {
    WithRoleCat(st.nodes, infos, Datastore);
    forall n | n in infos
      ensures !n.role.Datastore?
    {
      var k: nat :| k < |infos| && infos[k] == n;
      SameNode(InfoOf(nodes[k], d, ""), infos[k]);
      assert nodes[k] in nodes;
    }
    NoneOf(infos, Datastore);
  }

  lemma {:induction false} NoneOf(nodes: seq<NodeInfo>, role: Role)
    requires forall n | n in nodes :: n.role != role
    ensures WithRole(nodes, role) == []
  {
    if nodes != [] {
      NoneOf(nodes[1..], role);
    }
  }

  lemma FreshStays(w: World, w': World, c: string, nodes: seq<NodeConfig>, t: nat)
    requires FirstFresh(w, c, nodes, t, |nodes|) && w'.volumes == w.volumes
    ensures FirstFresh(w', c, nodes, t, |nodes|)
  {
    forall k: nat | k < |nodes|
      ensures FreshVolume(w', NodeVolumeName(c, nodes[k].name), t)
    {
      assert FreshVolume(w, NodeVolumeName(c, nodes[k].name), t);
    }
  }

  method JoinNext(p: Provisioner, c: string, cfg: ClusterConfig, nodes: seq<NodeConfig>, url: string, st: ClusterState, infos: seq<NodeInfo>,
                  ghost w0: World, ghost spare: string)
    returns (r: Result<seq<NodeInfo>>)
    requires p.Valid() && Stage(p, c, w0, spare) && Request(c, cfg, nodes, url, w0, st, p.domain)
    requires Joining(w0, p.world, c, nodes, st, infos, p.domain) && |infos| < |nodes|
    requires forall n | n in nodes :: !n.role.Datastore?
    modifies p`world, p`trace
    ensures p.Valid()
    ensures r.Ok? ==> Joining(w0, p.world, c, nodes, st, r.value, p.domain) && |r.value| == |infos| + 1
    ensures r.Err? ==> r.error == CliFailed
  {
    var i := |infos|;
    RequestLaunches(c, cfg, nodes, url, w0, st, p.domain, i);
    assert FreshVolume(p.world, NodeVolumeName(c, nodes[i].name), w0.clock);
    hide *;
    ghost var w := p.world;
    var info := Join(p, c, cfg, nodes[i], url, w0, spare);
    if info.Err? {
      return Err(info.error);
    }
    JoiningMore(w0, w, p.world, c, cfg, nodes, url, st, infos, p.domain, At(p.world, NodeFQDN(nodes[i].name, p.domain)).value.addr);
    r := Ok(infos + [info.value]);
  }

  /** The launch loop of AddAgents. */
  method JoinAll(p: Provisioner, c: string, cfg: ClusterConfig, nodes: seq<NodeConfig>, url: string, st: ClusterState,
                 ghost w0: World, ghost spare: string)
    returns (r: Result<seq<NodeInfo>>)
    requires p.Valid() && Stage(p, c, w0, spare) && Request(c, cfg, nodes, url, w0, st, p.domain)
    requires Joining(w0, p.world, c, nodes, st, [], p.domain)
    requires forall n | n in nodes :: !n.role.Datastore?
    modifies p`world, p`trace
    ensures p.Valid()
    ensures r.Ok? ==> Joining(w0, p.world, c, nodes, st, r.value, p.domain) && |r.value| == |nodes|
    ensures r.Err? ==> r.error == CliFailed
  {
    hide *;
    r := Ok([]);
    for i := 0 to |nodes|
      invariant p.Valid()
      invariant r.Ok? && |r.value| == i && Joining(w0, p.world, c, nodes, st, r.value, p.domain)
    {
      r := JoinNext(p, c, cfg, nodes, url, st, r.value, w0, spare);
      if r.Err? {
        return;
      }
    }
  }

  // ---------------------------------------------------------------------------------------
  // AddAgents
  // ---------------------------------------------------------------------------------------

  /** The configurations of count new agents numbered from idx. */
  function NewAgents(c: string, idx: nat, count: nat, memory: int, nanoCPUs: int, labels: seq<string>, extraArgs: seq<string>): (r: seq<NodeConfig>)
    ensures |r| == count
    ensures forall k | 0 <= k < count :: r[k] == NodeConfig(AgentName(c, idx + k), Agent, memory, nanoCPUs, labels, extraArgs)
  {
    seq(count, k requires 0 <= k < count => NodeConfig(AgentName(c, idx + k), Agent, memory, nanoCPUs, labels, extraArgs))
  }

  /** The added nodes are all that were asked for, in order. */
  ghost predicate Renamed(added: seq<NodeInfo>, nodes: seq<NodeConfig>, d: string) {
    FirstOf(added, nodes, d) && |added| == |nodes|
  }

  lemma AgentsNumbered(c: string, d: string, idx: nat, count: nat, memory: int, nanoCPUs: int, labels: seq<string>, extraArgs: seq<string>)
    requires CleanText(c)
    ensures K3sNodes(NewAgents(c, idx, count, memory, nanoCPUs, labels, extraArgs), c, d)
  {
    var agents := NewAgents(c, idx, count, memory, nanoCPUs, labels, extraArgs);
    forall n | n in agents
      ensures Numbered(InfoOf(n, d, ""), c, d)
    {
      var k :| 0 <= k < count && agents[k] == n;
      assert InfoOf(n, d, "").name == NodeName(c, Agent, idx + k);
    }
  }

  /** Adding agents with new names keeps the shape, one by one. */
  lemma {:induction false} ShapeJoined(st: ClusterState, added: seq<NodeInfo>, c: string, d: string)
    requires Shape(st, c, d)
    requires forall k | 0 <= k < |added| :: Numbered(added[k], c, d) && added[k].role.Agent?
    requires forall k | 0 <= k < |added| :: forall m | m in st.nodes :: m.name != added[k].name
    requires forall i, k | 0 <= i < k < |added| :: added[i].name != added[k].name
    ensures Shape(Plus(st, added), c, d)
    decreases |added|
  {
    hide Shape;
    hide Numbered;
    if added == [] {
      assert st.nodes + added == st.nodes;
    } else {
      var init, last := added[..|added| - 1], added[|added| - 1];
      ShapeJoined(st, init, c, d);
      assert added == init + [last];
      assert st.nodes + added == (st.nodes + init) + [last];
      forall m | m in st.nodes + init
        ensures m.name != last.name
      {
        if m in init {
          var i :| 0 <= i < |init| && init[i] == m;
          assert added[i].name != added[|added| - 1].name;
        }
      }
      ShapeAdded(Plus(st, init), last, c, d);
    }
  }

  lemma AgentsFit(st: ClusterState, added: seq<NodeInfo>, c: string, d: string, idx: nat, memory: int, nanoCPUs: int, labels: seq<string>, extraArgs: seq<string>)
    requires Shape(st, c, d) && IsNextIndex(st.nodes, Prefix(c, "agent"), idx)
    requires Renamed(added, NewAgents(c, idx, |added|, memory, nanoCPUs, labels, extraArgs), d)
    ensures Shape(Plus(st, added), c, d)
    ensures forall k: nat | k < |added| :: added[k].name == AgentName(c, idx + k) && added[k].role == Agent
    ensures forall k: nat | k < |added| :: forall m | m in st.nodes :: m.name != added[k].name
  {
    var agents := NewAgents(c, idx, |added|, memory, nanoCPUs, labels, extraArgs);
    AgentsNumbered(c, d, idx, |added|, memory, nanoCPUs, labels, extraArgs);
    forall k: nat | k < |added|
      ensures added[k].name == AgentName(c, idx + k) && Numbered(added[k], c, d) && added[k].role.Agent?
    {
      SameNode(InfoOf(agents[k], d, ""), added[k]);
      assert agents[k] in agents && Numbered(InfoOf(agents[k], d, ""), c, d);
      assert added[k].name == NodeName(c, Agent, idx + k);
    }
    forall k: nat | k < |added|
      ensures forall m | m in st.nodes :: m.name != added[k].name
    {
      FreshNames(st.nodes, Prefix(c, "agent"), idx, k, k);
    }
    forall i: nat, k: nat | i < k < |added|
      ensures added[i].name != added[k].name
    {
      FreshNames(st.nodes, Prefix(c, "agent"), idx, i, k);
    }
    ShapeJoined(st, added, c, d);
  }

  /** What a successful add leaves: the old record with count new agents, freshly numbered, all
      serving, at addresses no other node has. */
  ghost predicate Grew(w0: World, w: World, st: ClusterState, st': ClusterState, c: string, d: string, role: Role, count: nat) {
    var added := st'.nodes[if |st.nodes| <= |st'.nodes| then |st.nodes| else 0..];
    var grew :=
      && SavedOf(w, c) == Present(st')
      && st' == Plus(st, added) && |added| == count && DistinctIPs(st'.nodes)
      && (forall k: nat | k < |added| :: added[k].role == role && Serving(w, added[k]) && Enlisted(w, added[k], st, ClientDir(w0, c), d))
      && (forall k: nat | k < |added| :: forall m | m in st.nodes :: m.name != added[k].name)
      && (Faithful(w0, st, d) ==> Faithful(w, st', d));
    grew
  }

  lemma EveryAddPoint(p: Provisioner, c: string, w0: World, spare: string)
    requires p.Valid() && p.watch == AddingFrom(w0, c, spare)
    ensures forall k: nat | k < |p.trace| :: Adding(w0, p.trace[k], c, spare)
  {
    forall k: nat | k < |p.trace|
      ensures Adding(w0, p.trace[k], c, spare)
    {
      p.Then(k);
    }
  }

  /** AddAgents. */
  method AddAgents(p: Provisioner, c: string, count: nat, memory: int, nanoCPUs: int, labels: seq<string>, extraArgs: seq<string>)
    returns (r: Result<ClusterState>, ghost idx: nat)
    requires Tidy(p.world) && Lawful(p.world, c, p.domain)
    modifies p
    ensures p.Valid() && p.scope == c && p.origin == old(p.world)
    ensures forall k: nat | k < |p.trace| :: Adding(old(p.world), p.trace[k], c, "")
    ensures r.Ok? ==>
      && SavedOf(old(p.world), c).Present?
      && var st := SavedOf(old(p.world), c).state;
      && Grew(old(p.world), p.world, st, r.value, c, p.domain, Agent, count)
      && IsNextIndex(st.nodes, Prefix(c, "agent"), idx) && |st.nodes| <= |r.value.nodes|
      && Renamed(r.value.nodes[|st.nodes|..], NewAgents(c, idx, count, memory, nanoCPUs, labels, extraArgs), p.domain)
    ensures r.Err? && r.error.StaleVolume? ==> Refused(old(p.world), p.world, c, NewAgents(c, idx, count, memory, nanoCPUs, labels, extraArgs))
  {
    AddingStarts(p.world, c, "");
    p.Begin(c, AddingFrom(p.world, c, ""));
    ghost var w0 := p.world;
    var loaded := p.LoadState(c);
    if loaded.Ok? {
      r, idx := AddTo(p, c, loaded.value, count, memory, nanoCPUs, labels, extraArgs, w0);
    } else {
      r, idx := Err(loaded.error), 0;
    }
    EveryAddPoint(p, c, w0, "");
  }

  method AddTo(p: Provisioner, c: string, st: ClusterState, count: nat, memory: int, nanoCPUs: int, labels: seq<string>, extraArgs: seq<string>,
               ghost w0: World)
    returns (r: Result<ClusterState>, ghost next: nat)
    requires p.Valid() && p.scope == c && p.watch == AddingFrom(w0, c, "") && p.world == w0 && SavedOf(w0, c) == Present(st)
    modifies p`world, p`trace
    ensures p.Valid()
    ensures r.Ok? ==>
      && Grew(w0, p.world, st, r.value, c, p.domain, Agent, count)
      && IsNextIndex(st.nodes, Prefix(c, "agent"), next) && |st.nodes| <= |r.value.nodes|
      && Renamed(r.value.nodes[|st.nodes|..], NewAgents(c, next, count, memory, nanoCPUs, labels, extraArgs), p.domain)
    ensures r.Err? && r.error.StaleVolume? ==> Refused(w0, p.world, c, NewAgents(c, next, count, memory, nanoCPUs, labels, extraArgs))
  {
    hide *;
    var cfg := ClusterConfig(c, ResolvedImage(st.image), st.network, st.token, "", false, 0, "", 0, "", false, [], [], "", [], []);
    var idx := NextIndexForPrefix(st.nodes, Prefix(c, "agent"));
    var agents := NewAgents(c, idx, count, memory, nanoCPUs, labels, extraArgs);
    AgentsRequested(p, c, cfg, agents, st, idx, count, memory, nanoCPUs, labels, extraArgs, w0);
    var added := PrepareAndJoin(p, c, cfg, agents, st.serverURL, st, w0, "");
    next := idx;
    if added.Err? {
      r := Err(added.error);
      return;
    }
    AgentsFit(st, added.value, c, p.domain, idx, memory, nanoCPUs, labels, extraArgs);
    r := SaveGrown(p, c, st, added.value, w0, "", Agent);
    assert (st.nodes + added.value)[|st.nodes|..] == added.value;
  }

  /** The volumes of all new nodes, then the nodes. */
  method PrepareAndJoin(p: Provisioner, c: string, cfg: ClusterConfig, nodes: seq<NodeConfig>, url: string, st: ClusterState,
                        ghost w0: World, ghost spare: string)
    returns (r: Result<seq<NodeInfo>>)
    requires p.Valid() && Stage(p, c, w0, spare) && p.world == w0 && VolumesFree(p.watch) && K3sNodes(nodes, c, p.domain)
    requires Request(c, cfg, nodes, url, w0, st, p.domain) && forall n | n in nodes :: !n.role.Datastore?
    requires SavedOf(w0, c) == Present(st) && st.clusterName == c && HostPath(w0.root)
    modifies p`world, p`trace
    ensures p.Valid()
    ensures r.Ok? ==> Joined(w0, p.world, st, r.value, p.domain) && Renamed(r.value, nodes, p.domain) && |r.value| == |nodes|
    ensures r.Err? && r.error.StaleVolume? ==> Refused(w0, p.world, c, nodes)
  {
    assert p.scope == c;
    hide *;
    var prepared := PrepareNodeVolumes(p, c, nodes);
    if prepared.Fail? {
      return Err(prepared.error);
    }
    ReadyToJoin(w0, p.world, c, nodes, st, p.domain);
    r := JoinAll(p, c, cfg, nodes, url, st, w0, spare);
    if r.Ok? {
      JoiningGives(w0, p.world, c, nodes, st, r.value, p.domain);
    }
  }

  lemma AgentsRequested(p: Provisioner, c: string, cfg: ClusterConfig, agents: seq<NodeConfig>, st: ClusterState, idx: nat, count: nat,
                        memory: int, nanoCPUs: int, labels: seq<string>, extraArgs: seq<string>, w0: World)
    requires p.Valid() && p.scope == c && p.watch == AddingFrom(w0, c, "") && p.world == w0 && SavedOf(w0, c) == Present(st)
    requires agents == NewAgents(c, idx, count, memory, nanoCPUs, labels, extraArgs)
    requires cfg == ClusterConfig(c, ResolvedImage(st.image), st.network, st.token, "", false, 0, "", 0, "", false, [], [], "", [], [])
    ensures Stage(p, c, w0, "") && VolumesFree(p.watch) && K3sNodes(agents, c, p.domain)
    ensures Request(c, cfg, agents, st.serverURL, w0, st, p.domain) && forall n | n in agents :: !n.role.Datastore?
    ensures Shape(st, c, p.domain) && st.clusterName == c && HostPath(w0.root)
  {
    p.Now();
    ResolvedRuns(st.image);
    AgentsNumbered(c, p.domain, idx, count, memory, nanoCPUs, labels, extraArgs);
    AddingVolumesFree(w0, c, "");
  }

  lemma JoiningGives(w0: World, w: World, c: string, nodes: seq<NodeConfig>, st: ClusterState, added: seq<NodeInfo>, d: string)
    requires Joining(w0, w, c, nodes, st, added, d) && |added| == |nodes|
    ensures Joined(w0, w, st, added, d) && Renamed(added, nodes, d)
  {
  }

  lemma ReadyToJoin(w0: World, w: World, c: string, nodes: seq<NodeConfig>, st: ClusterState, d: string)
    requires OnlyVolumes(w0, w) && FirstFresh(w, c, nodes, w0.clock, |nodes|) && HostPath(w0.root) && st.clusterName == c
    requires SavedOf(w0, c) == Present(st)
    ensures Joining(w0, w, c, nodes, st, [], d)
  {
    assert st.nodes + [] == st.nodes;
    if Faithful(w0, st, d) {
      forall n | n in st.nodes
        ensures InPlace(w, n, st, d)
      {
        assert InPlace(w0, n, st, d) && At(w, n.id) == At(w0, n.id);
      }
      assert FileAt(w, TLSDir(w.root, c, CLIENT)) == FileAt(w0, TLSDir(w0.root, c, CLIENT));
    }
  }

  /** The address check and the new record. */
  method SaveGrown(p: Provisioner, c: string, st: ClusterState, added: seq<NodeInfo>, ghost w0: World, ghost spare: string, ghost role: Role)
    returns (r: Result<ClusterState>)
    requires p.Valid() && p.scope == c && p.watch == AddingFrom(w0, c, spare) && st.clusterName == c
    requires Shape(Plus(st, added), c, p.domain) && Joined(w0, p.world, st, added, p.domain)
    requires forall k: nat | k < |added| :: added[k].role == role
    requires forall k: nat | k < |added| :: forall m | m in st.nodes :: m.name != added[k].name
    modifies p`world, p`trace
    ensures p.Valid()
    ensures r.Ok? ==> Grew(w0, p.world, st, r.value, c, p.domain, role, |added|) && r.value.nodes == st.nodes + added
    ensures r.Err? ==> !r.error.StaleVolume?
  {
    var st' := Plus(st, added);
    var distinct := AssertDistinctIPs(st'.nodes);
    if distinct.Fail? {
      return Err(distinct.error);
    }
    ghost var w := p.world;
    MayGrow(p, c, w0, spare);
    var saved := p.SaveState(st');
    if saved.Fail? {
      return Err(saved.error);
    }
    SavedGrown(w0, w, p.world, st, added, c, p.domain, role);
    r := Ok(st');
  }

  lemma MayGrow(p: Provisioner, c: string, w0: World, spare: string)
    requires p.Valid() && p.watch == AddingFrom(w0, c, spare)
    ensures forall path, file {:trigger Written(p.world, path, file)} :: p.watch(Written(p.world, path, file))
  {
    p.Now();
    forall path, file {:trigger Written(p.world, path, file)}
      ensures p.watch(Written(p.world, path, file))
    {
      AddingWritten(w0, p.world, c, spare, path, file);
    }
  }

  lemma SavedGrown(w0: World, w: World, w': World, st: ClusterState, added: seq<NodeInfo>, c: string, d: string, role: Role)
    requires w' == Written(w, StatePath(w.root, c), Record(Plus(st, added))) && st.clusterName == c
    requires Joined(w0, w, st, added, d) && DistinctIPs(Plus(st, added).nodes)
    requires forall k: nat | k < |added| :: added[k].role == role
    requires forall k: nat | k < |added| :: forall m | m in st.nodes :: m.name != added[k].name
    ensures Grew(w0, w', st, Plus(st, added), c, d, role, |added|)
  {
    hide Serves;
    hide KeyedBy;
    assert Plus(st, added).nodes[|st.nodes|..] == added;
    assert forall x :: At(w', x) == At(w, x);
    forall k: nat | k < |added|
      ensures Serving(w', added[k]) && Enlisted(w', added[k], st, ClientDir(w0, c), d)
    {
      assert added[k] in added && Serving(w, added[k]) && Enlisted(w, added[k], st, ClientDir(w0, c), d);
    }
    if Faithful(w0, st, d) {
      FaithfulSaved(w, Plus(st, added), c, d, Record(Plus(st, added)));
    }
  }

  // ---------------------------------------------------------------------------------------
  // AddServer
  // ---------------------------------------------------------------------------------------

  /** ensureAddServerable. */
  method EnsureAddServerable(st: ClusterState) returns (r: Outcome)
    ensures r.Pass? <==> st.datastoreEndpoint != "" && WithRole(st.nodes, LB) != []
    ensures r.Fail? ==> !r.error.StaleVolume?
  {
    if st.datastoreEndpoint == "" {
      return Fail(NotServable);
    }
    for i := 0 to |st.nodes|
      invariant WithRole(st.nodes[..i], LB) == []
    {
      assert st.nodes[..i + 1] == st.nodes[..i] + [st.nodes[i]];
      WithRoleCat(st.nodes[..i], [st.nodes[i]], LB);
      if st.nodes[i].role == LB {
        assert st.nodes[i] in WithRole(st.nodes, LB);
        return Pass;
      }
    }
    assert st.nodes[..|st.nodes|] == st.nodes;
    r := Fail(NoLoadBalancer);
  }

  /** The container an add of a server restarts. */
  function SpareOf(saved: Saved): string {
    match saved
    case Present(st) => if WithRole(st.nodes, LB) != [] then WithRole(st.nodes, LB)[0].id else ""
    case _ => ""
  }

  /** Only the load balancer was restarted, over a new configuration. */
  ghost predicate Restarted(w: World, w': World, id: string) {
    && w'.volumes == w.volumes && w'.root == w.root
    && (forall x :: x != id ==> At(w', x) == At(w, x)) && SameRole(w, w', id)
    && (forall path :: FileAt(w, path).Some? ==> FileAt(w', path).Some?)
  }

  lemma RestartedSelf(w: World, id: string)
    ensures Restarted(w, w, id)
  {
  }

  lemma RestartedMore(w: World, w1: World, w2: World, id: string)
    requires Restarted(w, w1, id) && Restarted(w1, w2, id)
    ensures Restarted(w, w2, id)
  {
  }

  lemma RestartedSteps(w: World, id: string, path: string, file: File)
    ensures Restarted(w, Stopped(w, id), id) && Restarted(w, Started(w, id), id) && Restarted(w, Written(w, path, file), id)
  {
    SameRoleRuns(w, id, Remount);
    assert forall x :: At(Written(w, path, file), x) == At(w, x);
    assert forall x :: FileAt(Stopped(w, id), x) == FileAt(w, x) && FileAt(Started(w, id), x) == FileAt(w, x);
  }

  lemma JoinedRestart(w0: World, w: World, w': World, st: ClusterState, infos: seq<NodeInfo>, id: string, d: string)
    requires Joined(w0, w, st, infos, d) && Restarted(w, w', id) && forall n | n in infos :: n.id != id
    ensures Joined(w0, w', st, infos, d)
  {
    hide Serves;
    hide KeyedBy;
    forall n | n in infos
      ensures Serving(w', n) && Enlisted(w', n, st, ClientDir(w0, st.clusterName), d)
    {
      assert Serving(w, n) && Enlisted(w, n, st, ClientDir(w0, st.clusterName), d);
    }
    if Faithful(w0, st, d) {
      assert Readdressed(Plus(st, infos).nodes, Plus(st, infos).nodes);
      assert forall v :: SameVolume(w, w', v);
      forall n | n in Plus(st, infos).nodes
        ensures InPlace(w', n, Plus(st, infos), d)
      {
        assert InPlace(w, n, Plus(st, infos), d);
        assert n.id != id ==> At(w', n.id) == At(w, n.id);
        InPlaceKept(w, w', Plus(st, infos), Plus(st, infos), n, n, d);
      }
    }
  }

  /** What one restart step needs and gives. */
  lemma MayRestart(p: Provisioner, c: string, w0: World, spare: string, w: World, path: string, file: File)
    requires p.Valid() && p.watch == AddingFrom(w0, c, spare) && Restarted(w, p.world, spare)
    ensures p.watch(Stopped(p.world, spare)) && Restarted(w, Stopped(p.world, spare), spare)
    ensures p.watch(Started(p.world, spare)) && Restarted(w, Started(p.world, spare), spare)
    ensures p.watch(Written(p.world, path, file)) && Restarted(w, Written(p.world, path, file), spare)
  {
    p.Now();
    AddingRestart(w0, p.world, c, spare);
    AddingWritten(w0, p.world, c, spare, path, file);
    RestartedSteps(p.world, spare, path, file);
    RestartedMore(w, p.world, Stopped(p.world, spare), spare);
    RestartedMore(w, p.world, Started(p.world, spare), spare);
    RestartedMore(w, p.world, Written(p.world, path, file), spare);
  }

  /** The container runs on this load-balancer configuration, if that is what it mounts. */
  ghost predicate OnConfig(w: World, id: string, c: string, text: string) {
    && Up(w, id)
    && FileAt(w, ConfigDir(w.root, c)) == Some(Page(text))
    && (MountedAt(At(w, id).value.launch.volumes, LB_CONFIG_MOUNT) == Some(ConfigDir(w.root, c)) ==> At(w, id).value.config == Some(text))
  }

  /** The container runs on the configuration over the servers of these nodes. */
  ghost predicate SpreadsOver(w: World, id: string, c: string, nodes: seq<NodeInfo>, d: string) {
    var text := APILBConfig(c, ServerNames(nodes), d);
    OnConfig(w, id, c, text) && (CleanText(c) && (forall name | name in ServerNames(nodes) :: CleanText(name)) ==> Spreads(text, c, nodes, d))
  }

  lemma NowSpreads(w: World, id: string, c: string, nodes: seq<NodeInfo>, d: string)
    requires OnConfig(w, id, c, APILBConfig(c, ServerNames(nodes), d))
    ensures SpreadsOver(w, id, c, nodes, d)
  {
    hide APILBConfig;
    hide OnConfig;
    hide Spreads;
    hide ServerNames;
    if CleanText(c) && forall name | name in ServerNames(nodes) :: CleanText(name) {
      ConfigSpreads(c, nodes, d);
    }
  }

  lemma BootsOnConfig(w: World, id: string, c: string, text: string)
    requires FileAt(w, ConfigDir(w.root, c)) == Some(Page(text)) && At(w, id).Some?
    ensures OnConfig(Started(Stopped(w, id), id), id, c, text)
  {
    assert FileAt(Stopped(w, id), ConfigDir(w.root, c)) == FileAt(w, ConfigDir(w.root, c));
    assert FileAt(Started(Stopped(w, id), id), ConfigDir(w.root, c)) == FileAt(w, ConfigDir(w.root, c));
  }

  /** writeAPILBConfig. */
  method WriteAPILBConfig(p: Provisioner, c: string, text: string, ghost w0: World, ghost spare: string) returns (r: Outcome)
    requires p.Valid() && p.watch == AddingFrom(w0, c, spare) && p.scope == c
    modifies p`world, p`trace
    ensures p.Valid() && Restarted(old(p.world), p.world, spare)
    ensures r.Pass? ==> FileAt(p.world, ConfigDir(p.world.root, c)) == Some(Page(text))
    ensures r.Fail? ==> r.error == CliFailed
  {
    ghost var w := p.world;
    var path := ConfigDir(p.world.root, c);
    RestartedSelf(w, spare);
    MayRestart(p, c, w0, spare, w, path, Page(text));
    MayRestart(p, c, w0, spare, w, path, Junk);
    ConfigApart(p.world.root, c);
    r := p.Write(path, Page(text));
  }

  lemma ConfigApart(root: string, c: string)
    ensures ConfigDir(root, c) != StatePath(root, c) && Under(ConfigDir(root, c), root, c)
  {
    var front := ClusterDir(root, c) + "/";
    assert ConfigDir(root, c)[|front|] == 'l';
    assert StatePath(root, c)[|front|] == 's';
  }

  /** refreshAPILB: the backends are regenerated from the record, and the load balancer is
      restarted to read them. */
  method RefreshAPILB(p: Provisioner, c: string, nodes: seq<NodeInfo>, id: string, ghost w0: World) returns (r: Result<Addr>)
    requires p.Valid() && p.watch == AddingFrom(w0, c, id) && p.scope == c && Owned(id).Of(c)
    modifies p`world, p`trace
    ensures p.Valid() && Restarted(old(p.world), p.world, id)
    ensures r.Ok? ==> SpreadsOver(p.world, id, c, nodes, p.domain)
    ensures r.Err? ==> r.error == CliFailed
  {
    hide APILBConfig;
    hide SpreadsOver;
    ghost var w := p.world;
    var names := ServerConfigsFromState(nodes);
    var text := BuildAPILBConfig(c, names, p.domain);
    var written := WriteAPILBConfig(p, c, text, w0, id);
    if written.Fail? {
      return Err(written.error);
    }
    r := Reload(p, c, id, text, w, w0);
    if r.Ok? {
      NowSpreads(p.world, id, c, nodes, p.domain);
    }
  }

  method Reload(p: Provisioner, c: string, id: string, ghost text: string, ghost w: World, ghost w0: World) returns (r: Result<Addr>)
    requires p.Valid() && p.watch == AddingFrom(w0, c, id) && p.scope == c && Owned(id).Of(c)
    requires Restarted(w, p.world, id) && FileAt(p.world, ConfigDir(p.world.root, c)) == Some(Page(text))
    modifies p`world, p`trace
    ensures p.Valid() && Restarted(w, p.world, id)
    ensures r.Ok? ==> OnConfig(p.world, id, c, text)
    ensures r.Err? ==> r.error == CliFailed
  {
    ghost var w1 := p.world;
    MayRestart(p, c, w0, id, w, "", Junk);
    var stopped := p.Stop(id);
    if stopped.Fail? {
      return Err(stopped.error);
    }
    MayRestart(p, c, w0, id, w, "", Junk);
    var started := p.Start(id);
    if started.Fail? {
      return Err(started.error);
    }
    BootsOnConfig(w1, id, c, text);
    var addr :- p.InspectIPv4(id);
    var dialled := p.Await();
    r := if dialled.Pass? then Ok(addr) else Err(dialled.error);
  }

  /** What a successful add of a server leaves: one more server, freshly numbered and as asked
      for, with the datastore's client bundle if and only if it is on disk, and the load balancer
      over all of them. */
  ghost predicate ServerAdded(w0: World, w: World, st: ClusterState, st': ClusterState, server: NodeConfig, c: string, d: string) {
    |st'.nodes| == |st.nodes| + 1 &&
    var last := st'.nodes[|st.nodes|];
    var added :=
      && SavedOf(w, c) == Present(st') && st' == st.(nodes := st'.nodes)
      && Readdressed(st.nodes + [last], st'.nodes)
      && Bare(last) == Bare(InfoOf(server, d, "")) && Serving(w, last) && Enlisted(w, last, st, ClientDir(w0, c), d)
      && (forall m | m in st.nodes :: m.name != last.name)
      && DistinctIPs(st'.nodes)
      && (Faithful(w0, st, d) ==> Faithful(w, st', d) && Balanced(w, st', d));
    added
  }

  function NewServer(c: string, idx: nat, memory: int, nanoCPUs: int, labels: seq<string>, extraArgs: seq<string>): NodeConfig {
    NodeConfig(ServerName(c, idx), Server, memory, nanoCPUs, labels, extraArgs)
  }

  function JoinConfig(w: World, st: ClusterState): ClusterConfig {
    ClusterConfig(st.clusterName, ResolvedImage(st.image), st.network, st.token, st.datastoreEndpoint, false, 0, "", 0,
                  ClientDir(w, st.clusterName), false, [], [], "", [], [])
  }

  lemma ServerNumbered(c: string, d: string, server: NodeConfig, idx: nat, memory: int, nanoCPUs: int, labels: seq<string>, extraArgs: seq<string>)
    requires server == NewServer(c, idx, memory, nanoCPUs, labels, extraArgs) && CleanText(c)
    ensures K3sNodes([server], c, d)
  {
    assert InfoOf(server, d, "").name == NodeName(c, Server, idx);
    assert Numbered(InfoOf(server, d, ""), c, d);
  }

  lemma TheLB(st: ClusterState, c: string, d: string)
    requires Shape(st, c, d) && WithRole(st.nodes, LB) != []
    ensures |WithRole(st.nodes, LB)| == 1 && WithRole(st.nodes, LB)[0] in st.nodes
    ensures Owned(WithRole(st.nodes, LB)[0].id) == Node(c, LB)
  {
    var lb := WithRole(st.nodes, LB)[0];
    assert lb in st.nodes && Numbered(lb, c, d);
    NumberedOwner(lb, c, d);
  }

  lemma ServerRequested(p: Provisioner, c: string, st: ClusterState, server: NodeConfig, w0: World, spare: string,
                        idx: nat, memory: int, nanoCPUs: int, labels: seq<string>, extraArgs: seq<string>)
    requires p.Valid() && p.scope == c && p.watch == AddingFrom(w0, c, spare) && p.world == w0 && SavedOf(w0, c) == Present(st)
    requires server == NewServer(c, idx, memory, nanoCPUs, labels, extraArgs)
    requires WithRole(st.nodes, LB) != [] && spare == WithRole(st.nodes, LB)[0].id
    ensures Stage(p, c, w0, spare) && VolumesFree(p.watch) && K3sNodes([server], c, p.domain)
    ensures Request(c, JoinConfig(w0, st), [server], "", w0, st, p.domain)
    ensures Shape(st, c, p.domain) && st.clusterName == c && HostPath(w0.root) && Owned(spare) == Node(c, LB)
  {
    hide NodeName;
    hide ServerName;
    hide Distinct;
    hide Quorum;
    hide Fronted;
    hide Marked;
    hide Untouched;
    hide Adding;
    hide AllNumbered;
    hide Numbered;
    hide Owned;
    hide WithRole;
    hide Always;
    p.Now();
    ResolvedRuns(st.image);
    AddingVolumesFree(w0, c, spare);
    TheLB(st, c, p.domain);
    ServerNumbered(c, p.domain, server, idx, memory, nanoCPUs, labels, extraArgs);
  }

  /** The record with the new server and the load balancer's new address. */
  lemma ServerFits(st: ClusterState, info: NodeInfo, c: string, d: string, idx: nat, memory: int, nanoCPUs: int, labels: seq<string>, extraArgs: seq<string>,
                   addr: Addr)
    requires Shape(st, c, d) && IsNextIndex(st.nodes, Prefix(c, "server"), idx) && WithRole(st.nodes, LB) != []
    requires Bare(info) == Bare(InfoOf(NewServer(c, idx, memory, nanoCPUs, labels, extraArgs), d, ""))
    ensures
      var lb := WithRole(st.nodes, LB)[0];
      var nodes := ReplaceNode(st.nodes + [info], lb.(ips := [addr]));
      && Readdressed(st.nodes + [info], nodes) && Shape(st.(nodes := nodes), c, d)
      && nodes[|st.nodes|] == info && info.id != lb.id
      && (forall m | m in st.nodes :: m.name != info.name)
  {
    var lb := WithRole(st.nodes, LB)[0];
    var plus := Plus(st, [info]);
    ServerPlus(st, info, c, d, idx, memory, nanoCPUs, labels, extraArgs);
    TheLB(st, c, d);
    hide Shape;
    ShapeUnique(plus, c, d);
    assert lb in plus.nodes && info in plus.nodes;
    ReaddressOne(plus.nodes, plus.nodes, lb, [addr]);
    PlusReaddressed(plus, ReplaceNode(plus.nodes, lb.(ips := [addr])), c, d);
    ReplaceBefore(st.nodes, info, lb, [addr]);
  }

  lemma PlusReaddressed(plus: ClusterState, nodes: seq<NodeInfo>, c: string, d: string)
    requires Shape(plus, c, d) && Readdressed(plus.nodes, nodes)
    ensures Shape(plus.(nodes := nodes), c, d)
  {
    ShapeReaddressed(plus, plus.(nodes := nodes), c, d);
  }

  lemma ServerPlus(st: ClusterState, info: NodeInfo, c: string, d: string, idx: nat, memory: int, nanoCPUs: int, labels: seq<string>, extraArgs: seq<string>)
    requires Shape(st, c, d) && IsNextIndex(st.nodes, Prefix(c, "server"), idx) && WithRole(st.nodes, LB) != []
    requires Bare(info) == Bare(InfoOf(NewServer(c, idx, memory, nanoCPUs, labels, extraArgs), d, ""))
    ensures Shape(Plus(st, [info]), c, d) && info.role.Server?
    ensures forall m | m in st.nodes :: m.name != info.name
  {
    var server := NewServer(c, idx, memory, nanoCPUs, labels, extraArgs);
    SameNode(InfoOf(server, d, ""), info);
    ServerNumbered(c, d, server, idx, memory, nanoCPUs, labels, extraArgs);
    assert server in [server];
    FreshServer(st, c, idx);
    NumberedSame(InfoOf(server, d, ""), info, c, d);
    hide ServerName;
    ShapeAdded(st, info, c, d);
  }

  lemma FreshServer(st: ClusterState, c: string, idx: nat)
    requires IsNextIndex(st.nodes, Prefix(c, "server"), idx)
    ensures forall m | m in st.nodes :: m.name != ServerName(c, idx)
  {
    FreshNames(st.nodes, Prefix(c, "server"), idx, 0, 0);
  }

  lemma NumberedSame(a: NodeInfo, b: NodeInfo, c: string, d: string)
    requires Numbered(a, c, d) && Bare(a) == Bare(b)
    ensures Numbered(b, c, d)
  {
    SameNode(a, b);
    var i: nat :| a.name == NodeName(c, a.role, i);
    assert b.name == NodeName(c, b.role, i);
  }

  /** Replacing a node of the front leaves the last one. */
  lemma {:induction false} ReplaceBefore(nodes: seq<NodeInfo>, last: NodeInfo, n: NodeInfo, ips: seq<Addr>)
    requires n in nodes
    ensures ReplaceNode(nodes + [last], n.(ips := ips)) == ReplaceNode(nodes, n.(ips := ips)) + [last]
  {
    assert (nodes + [last])[1..] == nodes[1..] + [last];
    if nodes[0].id != n.id {
      ReplaceBefore(nodes[1..], last, n, ips);
    }
  }

  lemma OnlyLB(a: seq<NodeInfo>, b: seq<NodeInfo>, n: NodeInfo)
    requires Readdressed(a, b) && |WithRole(a, LB)| == 1 && n in b && n.role.LB?
    ensures n.id == WithRole(a, LB)[0].id
  {
    ReaddressedRole(a, b, LB);
    assert n in WithRole(b, LB);
    var x, y := WithRole(a, LB), WithRole(b, LB);
    hide WithRole;
    Sole(y, n);
    SameNode(x[0], y[0]);
  }

  lemma Sole(nodes: seq<NodeInfo>, n: NodeInfo)
    requires |nodes| == 1 && n in nodes
    ensures n == nodes[0]
  {
  }

  lemma AllBalanced(w: World, st: ClusterState, st': ClusterState, c: string, d: string)
    requires Faithful(w, st', d) && st'.clusterName == c && Readdressed(st.nodes, st'.nodes) && |WithRole(st.nodes, LB)| == 1
    requires CleanText(c) && AllNumbered(st'.nodes, c, d)
    requires SpreadsOver(w, WithRole(st.nodes, LB)[0].id, c, st.nodes, d)
    ensures Balanced(w, st', d)
  {
    hide APILBConfig;
    hide Routes;
    hide Suits;
    hide AllNumbered;
    hide ServerNames;
    SameServerNames(st.nodes, st'.nodes);
    CleanServers(st'.nodes, c, d);
    forall n | n in st'.nodes && n.role.LB?
      ensures n.id == WithRole(st.nodes, LB)[0].id && InPlace(w, n, st', d)
    {
      OnlyLB(st.nodes, st'.nodes, n);
    }
  }

  /** AddServer. */
  method AddServer(p: Provisioner, c: string, memory: int, nanoCPUs: int, labels: seq<string>, extraArgs: seq<string>)
    returns (r: Result<ClusterState>, ghost idx: nat)
    requires Tidy(p.world) && Lawful(p.world, c, p.domain)
    modifies p
    ensures p.Valid() && p.scope == c && p.origin == old(p.world)
    ensures forall k: nat | k < |p.trace| :: Adding(old(p.world), p.trace[k], c, SpareOf(SavedOf(old(p.world), c)))
    ensures r.Ok? ==>
      && SavedOf(old(p.world), c).Present?
      && var st := SavedOf(old(p.world), c).state;
      && st.datastoreEndpoint != "" && WithRole(st.nodes, LB) != [] && IsNextIndex(st.nodes, Prefix(c, "server"), idx)
      && ServerAdded(old(p.world), p.world, st, r.value,
                     NodeConfig(ServerName(c, idx), Server, memory, nanoCPUs, labels, extraArgs), c, p.domain)
    ensures r.Err? && r.error.StaleVolume? ==> p.world == old(p.world)
  {
    ghost var w0, spare := p.world, SpareOf(SavedOf(p.world, c));
    AddingStarts(w0, c, spare);
    p.Begin(c, AddingFrom(w0, c, spare));
    var loaded := p.LoadState(c);
    r, idx := Err(NotFound), 0;
    if loaded.Err? {
      r := Err(loaded.error);
    } else {
      var servable := EnsureAddServerable(loaded.value);
      if servable.Fail? {
        r := Err(servable.error);
      } else {
        r, idx := AddServerTo(p, c, loaded.value, memory, nanoCPUs, labels, extraArgs, w0, spare);
      }
    }
    EveryAddPoint(p, c, w0, spare);
  }

  method AddServerTo(p: Provisioner, c: string, st: ClusterState, memory: int, nanoCPUs: int, labels: seq<string>, extraArgs: seq<string>,
                     ghost w0: World, ghost spare: string)
    returns (r: Result<ClusterState>, ghost next: nat)
    requires p.Valid() && p.scope == c && p.watch == AddingFrom(w0, c, spare) && p.world == w0 && SavedOf(w0, c) == Present(st)
    requires WithRole(st.nodes, LB) != [] && spare == WithRole(st.nodes, LB)[0].id
    modifies p`world, p`trace
    ensures p.Valid()
    ensures r.Ok? ==>
      && IsNextIndex(st.nodes, Prefix(c, "server"), next)
      && ServerAdded(w0, p.world, st, r.value, NewServer(c, next, memory, nanoCPUs, labels, extraArgs), c, p.domain)
    ensures r.Err? && r.error.StaleVolume? ==> p.world == w0
  {
    hide *;
    var idx := NextIndexForPrefix(st.nodes, Prefix(c, "server"));
    next := idx;
    var server := NewServer(c, idx, memory, nanoCPUs, labels, extraArgs);
    ServerRequested(p, c, st, server, w0, spare, idx, memory, nanoCPUs, labels, extraArgs);
    NewIsServer(c, idx, memory, nanoCPUs, labels, extraArgs);
    var added := PrepareAndJoin(p, c, JoinConfig(p.world, st), [server], "", st, w0, spare);
    if added.Err? {
      if added.error.StaleVolume? {
        RefusedAlone(w0, p.world, c, server);
      }
      r := Err(added.error);
      return;
    }
    var dialled := p.Await();
    if dialled.Fail? {
      r := Err(dialled.error);
      return;
    }
    TheOne(added.value, server, p.domain);
    r := Rebalance(p, c, st, added.value[0], idx, memory, nanoCPUs, labels, extraArgs, w0, spare);
  }

  lemma NewIsServer(c: string, idx: nat, memory: int, nanoCPUs: int, labels: seq<string>, extraArgs: seq<string>)
    ensures NewServer(c, idx, memory, nanoCPUs, labels, extraArgs).role.Server?
  {
  }

  /** One node refused by the guard is refused with nothing done. */
  lemma RefusedAlone(w0: World, w: World, c: string, node: NodeConfig)
    requires Refused(w0, w, c, [node])
    ensures w == w0
  {
    hide NodeVolumeName;
  }

  lemma TheOne(infos: seq<NodeInfo>, server: NodeConfig, d: string)
    requires Renamed(infos, [server], d)
    ensures infos == [infos[0]] && Bare(infos[0]) == Bare(InfoOf(server, d, ""))
  {
  }

  lemma StageFacts(p: Provisioner, c: string, st: ClusterState, w0: World, spare: string)
    requires Stage(p, c, w0, spare) && Shape(st, c, p.domain) && Owned(spare) == Node(c, LB)
    ensures st.clusterName == c && p.scope == c && p.watch == AddingFrom(w0, c, spare) && Owned(spare).Of(c)
  {
  }

  /** The end of AddServer: the load balancer over the larger set, and the record. */
  method Rebalance(p: Provisioner, c: string, st: ClusterState, info: NodeInfo, idx: nat, memory: int, nanoCPUs: int, labels: seq<string>,
                   extraArgs: seq<string>, ghost w0: World, ghost spare: string)
    returns (r: Result<ClusterState>)
    requires p.Valid() && Stage(p, c, w0, spare) && Shape(st, c, p.domain)
    requires WithRole(st.nodes, LB) != [] && spare == WithRole(st.nodes, LB)[0].id && Owned(spare) == Node(c, LB)
    requires IsNextIndex(st.nodes, Prefix(c, "server"), idx) && Joined(w0, p.world, st, [info], p.domain)
    requires Bare(info) == Bare(InfoOf(NewServer(c, idx, memory, nanoCPUs, labels, extraArgs), p.domain, ""))
    modifies p`world, p`trace
    ensures p.Valid()
    ensures r.Ok? ==> ServerAdded(w0, p.world, st, r.value, NewServer(c, idx, memory, nanoCPUs, labels, extraArgs), c, p.domain)
    ensures forall v :: r != Err(StaleVolume(v))
  {
    hide *;
    StageFacts(p, c, st, w0, spare);
    ServerNotLB(st, info, c, p.domain, idx, memory, nanoCPUs, labels, extraArgs);
    var lb := WithRole(st.nodes, LB)[0];
    ghost var w := p.world;
    var addr := RefreshAPILB(p, c, st.nodes + [info], lb.id, w0);
    if addr.Err? {
      return Err(addr.error);
    }
    JoinedRestart(w0, w, p.world, st, [info], lb.id, p.domain);
    r := Resettle(p, c, st, info, addr.value, idx, memory, nanoCPUs, labels, extraArgs, w0, spare);
  }

  lemma ServerNotLB(st: ClusterState, info: NodeInfo, c: string, d: string, idx: nat, memory: int, nanoCPUs: int, labels: seq<string>, extraArgs: seq<string>)
    requires Shape(st, c, d) && IsNextIndex(st.nodes, Prefix(c, "server"), idx) && WithRole(st.nodes, LB) != []
    requires Bare(info) == Bare(InfoOf(NewServer(c, idx, memory, nanoCPUs, labels, extraArgs), d, ""))
    ensures forall n | n in [info] :: n.id != WithRole(st.nodes, LB)[0].id
    ensures NewServer(c, idx, memory, nanoCPUs, labels, extraArgs).role.Server?
  {
    ServerFits(st, info, c, d, idx, memory, nanoCPUs, labels, extraArgs, "");
  }

  /** The record with the load balancer's new address, if all addresses differ. */
  method Resettle(p: Provisioner, c: string, st: ClusterState, info: NodeInfo, addr: Addr, idx: nat, memory: int, nanoCPUs: int, labels: seq<string>,
                  extraArgs: seq<string>, ghost w0: World, ghost spare: string)
    returns (r: Result<ClusterState>)
    requires p.Valid() && p.scope == c && p.watch == AddingFrom(w0, c, spare) && st.clusterName == c
    requires Shape(st, c, p.domain) && WithRole(st.nodes, LB) != []
    requires IsNextIndex(st.nodes, Prefix(c, "server"), idx) && Joined(w0, p.world, st, [info], p.domain)
    requires Bare(info) == Bare(InfoOf(NewServer(c, idx, memory, nanoCPUs, labels, extraArgs), p.domain, ""))
    requires SpreadsOver(p.world, WithRole(st.nodes, LB)[0].id, c, st.nodes + [info], p.domain)
    modifies p`world, p`trace
    ensures p.Valid()
    ensures r.Ok? ==> ServerAdded(w0, p.world, st, r.value, NewServer(c, idx, memory, nanoCPUs, labels, extraArgs), c, p.domain)
    ensures forall v :: r != Err(StaleVolume(v))
  {
    hide *;
    var lb := WithRole(st.nodes, LB)[0];
    ServerFits(st, info, c, p.domain, idx, memory, nanoCPUs, labels, extraArgs, addr);
    ServerNotLB(st, info, c, p.domain, idx, memory, nanoCPUs, labels, extraArgs);
    var nodes := ReplaceNode(st.nodes + [info], lb.(ips := [addr]));
    var distinct := AssertDistinctIPs(nodes);
    if distinct.Fail? {
      return Err(distinct.error);
    }
    r := SaveServer(p, c, st, info, nodes, NewServer(c, idx, memory, nanoCPUs, labels, extraArgs), w0, spare);
  }

  method SaveServer(p: Provisioner, c: string, st: ClusterState, info: NodeInfo, nodes: seq<NodeInfo>, ghost server: NodeConfig,
                    ghost w0: World, ghost spare: string)
    returns (r: Result<ClusterState>)
    requires p.Valid() && p.scope == c && p.watch == AddingFrom(w0, c, spare) && st.clusterName == c
    requires Shape(st.(nodes := nodes), c, p.domain) && Readdressed(st.nodes + [info], nodes) && nodes[|st.nodes|] == info
    requires Joined(w0, p.world, st, [info], p.domain) && DistinctIPs(nodes)
    requires Bare(info) == Bare(InfoOf(server, p.domain, "")) && server.role.Server? && forall m | m in st.nodes :: m.name != info.name
    requires Shape(st, c, p.domain) && WithRole(st.nodes, LB) != []
    requires SpreadsOver(p.world, WithRole(st.nodes, LB)[0].id, c, st.nodes + [info], p.domain)
    modifies p`world, p`trace
    ensures p.Valid()
    ensures r.Ok? ==> ServerAdded(w0, p.world, st, r.value, server, c, p.domain)
    ensures forall v :: r != Err(StaleVolume(v))
  {
    hide *;
    var st' := st.(nodes := nodes);
    ghost var w := p.world;
    MayGrow(p, c, w0, spare);
    var saved := p.SaveState(st');
    if saved.Fail? {
      return Err(saved.error);
    }
    SavedServer(w0, w, p.world, st, st', info, server, c, p.domain);
    r := Ok(st');
  }

  lemma SavedServer(w0: World, w: World, w': World, st: ClusterState, st': ClusterState, info: NodeInfo, server: NodeConfig, c: string, d: string)
    requires w' == Written(w, StatePath(w.root, c), Record(st')) && st.clusterName == c && st' == st.(nodes := st'.nodes)
    requires Readdressed(st.nodes + [info], st'.nodes) && st'.nodes[|st.nodes|] == info
    requires Joined(w0, w, st, [info], d) && DistinctIPs(st'.nodes)
    requires Bare(info) == Bare(InfoOf(server, d, "")) && server.role.Server? && forall m | m in st.nodes :: m.name != info.name
    requires Shape(st, c, d) && WithRole(st.nodes, LB) != []
    requires SpreadsOver(w, WithRole(st.nodes, LB)[0].id, c, st.nodes + [info], d) && Shape(st', c, d)
    ensures ServerAdded(w0, w', st, st', server, c, d)
  {
    hide Serves;
    hide KeyedBy;
    hide APILBConfig;
    hide InPlace;
    hide Shape;
    hide TLSSource;
    hide TLSDir;
    hide ServerNames;
    hide DistinctIPs;
    hide SpreadsOver;
    hide Faithful;
    hide Balanced;
    SavedJoined(w0, w, w', st, st', info, c, d);
    if Faithful(w0, st, d) {
      ServerFaithful(w, st, st', info, c, d);
      FaithfulSaved(w, st', c, d, Record(st'));
      SavedBalanced(w, w', st', d);
    }
  }

  lemma SavedJoined(w0: World, w: World, w': World, st: ClusterState, st': ClusterState, info: NodeInfo, c: string, d: string)
    requires w' == Written(w, StatePath(w.root, c), Record(st')) && st.clusterName == c && Joined(w0, w, st, [info], d)
    ensures SavedOf(w', c) == Present(st') && Serving(w', info) && Enlisted(w', info, st, ClientDir(w0, c), d)
    ensures Faithful(w0, st, d) ==> Faithful(w, Plus(st, [info]), d)
  {
    hide Serves;
    hide KeyedBy;
    hide TLSSource;
    hide TLSDir;
    hide Faithful;
    assert info in [info];
    assert forall x :: At(w', x) == At(w, x);
  }

  lemma ServerFaithful(w: World, st: ClusterState, st': ClusterState, info: NodeInfo, c: string, d: string)
    requires Faithful(w, Plus(st, [info]), d) && st' == st.(nodes := st'.nodes) && Readdressed(st.nodes + [info], st'.nodes)
    requires Shape(st, c, d) && WithRole(st.nodes, LB) != [] && info.role.Server?
    requires SpreadsOver(w, WithRole(st.nodes, LB)[0].id, c, st.nodes + [info], d) && Shape(st', c, d)
    ensures Faithful(w, st', d) && Balanced(w, st', d)
  {
    hide SpreadsOver;
    hide InPlace;
    hide Quorum;
    var plus := Plus(st, [info]);
    RolesAfter(st.nodes, info, LB);
    FaithfulKept(w, w, plus, st', d);
    AllBalanced(w, plus, st', c, d);
  }

  // ---------------------------------------------------------------------------------------
  // RemoveNode
  // ---------------------------------------------------------------------------------------

  /** ensureRemovable: agents only. */
  function EnsureRemovable(node: NodeInfo): (r: Outcome)
    ensures r.Pass? <==> node.role.Agent?
    ensures r.Fail? ==> r.error == NotRemovable(node.role)
  {
    if node.role.Agent? then Pass else Fail(NotRemovable(node.role))
  }

  /** Only this container and this volume differ. */
  ghost predicate OnlyNode(w0: World, w: World, id: string, v: string) {
    && w.root == w0.root
    && (forall x :: x != id ==> At(w, x) == At(w0, x))
    && (forall x :: x != v ==> Vol(w, x) == Vol(w0, x))
    && (forall path :: FileAt(w0, path).Some? ==> FileAt(w, path).Some?)
  }

  ghost function OnlyNodeFrom(w0: World, id: string, v: string): World -> bool {
    w => OnlyNode(w0, w, id, v)
  }

  lemma OnlyNodeMore(w0: World, w: World, w': World, id: string, v: string)
    requires OnlyNode(w0, w, id, v) && OnlyNode(w, w', id, v)
    ensures OnlyNode(w0, w', id, v)
  {
  }

  lemma OnlyNodeRuns(w: World, id: string, v: string)
    ensures OnlyNode(w, Stopped(w, id), id, v) && OnlyNode(w, Removed(w, id), id, v) && OnlyNode(w, Readied(w, id, false), id, v)
  {
    assert forall x :: x != id ==> At(Removed(w, id), x) == At(w, x);
    assert forall x :: FileAt(Removed(w, id), x) == FileAt(w, x);
  }

  lemma OnlyNodeFiles(w: World, id: string, v: string, path: string, file: File)
    ensures OnlyNode(w, VolumeGone(w, v), id, v) && OnlyNode(w, Written(w, path, file), id, v)
  {
    assert forall x :: x != v ==> Vol(VolumeGone(w, v), x) == Vol(w, x);
    assert forall x :: At(VolumeGone(w, v), x) == At(w, x) && At(Written(w, path, file), x) == At(w, x);
    assert forall x :: FileAt(VolumeGone(w, v), x) == FileAt(w, x);
  }

  lemma MayDrop(p: Provisioner, w0: World, id: string, v: string, path: string, file: File)
    requires p.Valid() && p.watch == OnlyNodeFrom(w0, id, v)
    ensures p.watch(Stopped(p.world, id)) && p.watch(Removed(p.world, id)) && p.watch(Readied(p.world, id, false))
    ensures p.watch(VolumeGone(p.world, v)) && p.watch(Written(p.world, path, file))
  {
    p.Now();
    var w := p.world;
    OnlyNodeRuns(w, id, v);
    OnlyNodeFiles(w, id, v, path, file);
    OnlyNodeMore(w0, w, Stopped(w, id), id, v);
    OnlyNodeMore(w0, w, Removed(w, id), id, v);
    OnlyNodeMore(w0, w, Readied(w, id, false), id, v);
    OnlyNodeMore(w0, w, VolumeGone(w, v), id, v);
    OnlyNodeMore(w0, w, Written(w, path, file), id, v);
  }

  /** The first recorded node of a name. */
  function IndexOf(nodes: seq<NodeInfo>, name: string): (r: Option<nat>)
    ensures r.Some? ==> r.value < |nodes| && nodes[r.value].name == name && forall k: nat | k < r.value :: nodes[k].name != name
    ensures r.None? ==> forall n | n in nodes :: n.name != name
  {
    if nodes == [] then None
    else if nodes[0].name == name then Some(0)
    else match IndexOf(nodes[1..], name)
      case None => None
      case Some(k) => Some(k + 1)
  }

  method FindNode(nodes: seq<NodeInfo>, name: string) returns (r: Option<nat>)
    ensures r == IndexOf(nodes, name)
  {
    for i := 0 to |nodes|
      invariant IndexOf(nodes, name) == match IndexOf(nodes[i..], name) case None => None case Some(k) => Some(k + i)
    {
      if nodes[i].name == name {
        return Some(i);
      }
      assert nodes[i..][1..] == nodes[i + 1..];
    }
    r := None;
  }

  /** What a removal of a node may touch. */
  function TargetOf(saved: Saved, name: string): Option<NodeInfo> {
    match saved
    case Present(st) => (match IndexOf(st.nodes, name) case Some(k) => Some(st.nodes[k]) case None => None)
    case _ => None
  }

  /** What a successful removal leaves: neither the container nor the volume of the node, and the
      record without it. */
  ghost predicate NodeRemoved(w0: World, w: World, st: ClusterState, k: nat, c: string, d: string) {
    k < |st.nodes| &&
    var st' := st.(nodes := st.nodes[..k] + st.nodes[k + 1..]);
    var removed :=
      && SavedOf(w, c) == Present(st') && st.nodes[k].role.Agent?
      && WithRole(st'.nodes, Server) == WithRole(st.nodes, Server)
      && At(w, st.nodes[k].id).None? && Vol(w, NodeVolumeName(c, st.nodes[k].name)).None?
      && (Faithful(w0, st, d) ==> Faithful(w, st', d));
    removed
  }

  /** RemoveNode. */
  method RemoveNode(p: Provisioner, c: string, name: string) returns (r: Outcome)
    requires Tidy(p.world) && Lawful(p.world, c, p.domain)
    modifies p
    ensures p.Valid() && p.scope == c && p.origin == old(p.world)
    ensures TargetOf(SavedOf(old(p.world), c), name).Some? ==>
      var node := TargetOf(SavedOf(old(p.world), c), name).value;
      && (forall k: nat | k < |p.trace| :: OnlyNode(old(p.world), p.trace[k], node.id, NodeVolumeName(c, node.name)))
      && (!node.role.Agent? ==> r.Fail?)
    ensures TargetOf(SavedOf(old(p.world), c), name).None? || !TargetOf(SavedOf(old(p.world), c), name).value.role.Agent? ==>
              r.Fail? && p.world == old(p.world)
    ensures r.Pass? ==>
      && SavedOf(old(p.world), c).Present?
      && var st := SavedOf(old(p.world), c).state;
      && IndexOf(st.nodes, name).Some?
      && NodeRemoved(old(p.world), p.world, st, IndexOf(st.nodes, name).value, c, p.domain)
  {
    p.Begin(c, Anything());
    ghost var w0, target := p.world, TargetOf(SavedOf(p.world, c), name);
    var loaded := p.LoadState(c);
    if target.Some? {
      p.Begin(c, OnlyNodeFrom(w0, target.value.id, NodeVolumeName(c, target.value.name)));
      EveryRemovalPoint(p, w0, target.value.id, NodeVolumeName(c, target.value.name));
    }
    if loaded.Err? {
      return Fail(loaded.error);
    }
    var found := FindNode(loaded.value.nodes, name);
    if found.None? {
      return Fail(NotFound);
    }
    var removable := EnsureRemovable(loaded.value.nodes[found.value]);
    if removable.Fail? {
      return removable;
    }
    r := Drop(p, c, loaded.value, found.value, w0);
    EveryRemovalPoint(p, w0, target.value.id, NodeVolumeName(c, target.value.name));
  }

  lemma EveryRemovalPoint(p: Provisioner, w0: World, id: string, v: string)
    requires p.Valid() && p.watch == OnlyNodeFrom(w0, id, v)
    ensures forall k: nat | k < |p.trace| :: OnlyNode(w0, p.trace[k], id, v)
  {
    forall k: nat | k < |p.trace|
      ensures OnlyNode(w0, p.trace[k], id, v)
    {
      p.Then(k);
    }
  }

  lemma MayTouch(p: Provisioner, c: string, st: ClusterState, k: nat)
    requires p.Valid() && p.scope == c && SavedOf(p.world, c) == Present(st) && k < |st.nodes| && st.nodes[k].role.Agent?
    ensures Shape(st, c, p.domain) && st.clusterName == c
    ensures Owned(st.nodes[k].id).Of(c) && OwnedVolume(NodeVolumeName(c, st.nodes[k].name)).Of(c)
    ensures Shape(st.(nodes := st.nodes[..k] + st.nodes[k + 1..]), c, p.domain)
  {
    p.Now();
    assert st.nodes[k] in st.nodes;
    NumberedOwner(st.nodes[k], c, p.domain);
    ShapeRemoved(st, k, c, p.domain);
  }

  /** The removal itself. */
  method Drop(p: Provisioner, c: string, st: ClusterState, k: nat, ghost w0: World) returns (r: Outcome)
    requires p.Valid() && p.scope == c && p.world == w0 && SavedOf(w0, c) == Present(st) && k < |st.nodes| && st.nodes[k].role.Agent?
    requires p.watch == OnlyNodeFrom(w0, st.nodes[k].id, NodeVolumeName(c, st.nodes[k].name))
    modifies p`world, p`trace
    ensures p.Valid()
    ensures r.Pass? ==> NodeRemoved(w0, p.world, st, k, c, p.domain)
  {
    var node := st.nodes[k];
    var v := NodeVolumeName(c, node.name);
    MayTouch(p, c, st, k);
    MayDrop(p, w0, node.id, v, "", Junk);
    p.KubectlDelete(node.id);
    MayDrop(p, w0, node.id, v, "", Junk);
    :- p.Stop(node.id);
    r := RemoveBoth(p, c, st, k, node.id, v, w0);
  }

  method RemoveBoth(p: Provisioner, c: string, st: ClusterState, k: nat, id: string, v: string, ghost w0: World) returns (r: Outcome)
    requires p.Valid() && p.scope == c && k < |st.nodes| && st.nodes[k].role.Agent? && id == st.nodes[k].id && v == NodeVolumeName(c, st.nodes[k].name)
    requires p.watch == OnlyNodeFrom(w0, id, v) && Owned(id).Of(c) && OwnedVolume(v).Of(c)
    requires Shape(st, c, p.domain) && Shape(st.(nodes := st.nodes[..k] + st.nodes[k + 1..]), c, p.domain)
    modifies p`world, p`trace
    ensures p.Valid()
    ensures r.Pass? ==> NodeRemoved(w0, p.world, st, k, c, p.domain)
  {
    var st' := st.(nodes := st.nodes[..k] + st.nodes[k + 1..]);
    assert st'.clusterName == c;
    MayDrop(p, w0, id, v, "", Junk);
    :- p.Remove(id);
    MayDrop(p, w0, id, v, "", Junk);
    :- p.VolumeDelete(v);
    ghost var w := p.world;
    MayDrop(p, w0, id, v, StatePath(w.root, c), Record(st'));
    MayDrop(p, w0, id, v, StatePath(w.root, c), Junk);
    r := p.SaveState(st');
    p.Now();
    if r.Pass? {
      SavedRemoval(w0, w, p.world, st, k, c, p.domain);
    }
  }

  lemma SavedRemoval(w0: World, w: World, w': World, st: ClusterState, k: nat, c: string, d: string)
    requires k < |st.nodes| && st.nodes[k].role.Agent? && Shape(st, c, d)
    requires w' == Written(w, StatePath(w.root, c), Record(st.(nodes := st.nodes[..k] + st.nodes[k + 1..])))
    requires OnlyNode(w0, w', st.nodes[k].id, NodeVolumeName(c, st.nodes[k].name))
    requires At(w, st.nodes[k].id).None? && Vol(w, NodeVolumeName(c, st.nodes[k].name)).None?
    ensures NodeRemoved(w0, w', st, k, c, d)
  {
    hide Faithful;
    hide Shape;
    hide NodeVolumeName;
    hide OnlyNode;
    ShapeNamed(st, c, d);
    RolesWithout(st.nodes, k, Server);
    assert At(w', st.nodes[k].id) == At(w, st.nodes[k].id);
    if Faithful(w0, st, d) {
      LeftFaithful(w0, w', st, k, c, d);
    }
  }

  lemma LeftFaithful(w0: World, w: World, st: ClusterState, k: nat, c: string, d: string)
    requires Shape(st, c, d) && Faithful(w0, st, d) && k < |st.nodes| && st.nodes[k].role.Agent?
    requires OnlyNode(w0, w, st.nodes[k].id, NodeVolumeName(c, st.nodes[k].name))
    ensures Faithful(w, st.(nodes := st.nodes[..k] + st.nodes[k + 1..]), d)
  {
    hide Shape;
    hide InPlace;
    hide TLSDir;
    hide FileAt;
    var st' := st.(nodes := st.nodes[..k] + st.nodes[k + 1..]);
    RolesWithout(st.nodes, k, Datastore);
    ShapeNamed(st, c, d);
    forall n | n in st'.nodes
      ensures InPlace(w, n, st', d)
    {
      var i: nat :| i < |st'.nodes| && st'.nodes[i] == n;
      var j := if i < k then i else i + 1;
      assert st'.nodes[i] == st.nodes[j];
      LeftInPlace(w0, w, st, st', k, j, c, d);
    }
  }

  lemma LeftInPlace(w0: World, w: World, st: ClusterState, st': ClusterState, k: nat, j: nat, c: string, d: string)
    requires Shape(st, c, d) && Faithful(w0, st, d) && k < |st.nodes| && j < |st.nodes| && j != k && st.nodes[k].role.Agent?
    requires OnlyNode(w0, w, st.nodes[k].id, NodeVolumeName(c, st.nodes[k].name))
    requires st' == st.(nodes := st'.nodes) && WithRole(st'.nodes, Datastore) == WithRole(st.nodes, Datastore)
    ensures InPlace(w, st.nodes[j], st', d)
  {
    hide InPlace;
    hide Shape;
    ShapeNamed(st, c, d);
    assert st.nodes[j] in st.nodes && InPlace(w0, st.nodes[j], st, d);
    NodesApart(st, k, j, c, d);
    InPlaceBeside(w0, w, st, st', st.nodes[j], d);
  }

  /** A node shares neither its container ID nor its volume with an agent of the record. */
  lemma NodesApart(st: ClusterState, k: nat, j: nat, c: string, d: string)
    requires Shape(st, c, d) && k < |st.nodes| && j < |st.nodes| && j != k && st.nodes[k].role.Agent?
    ensures st.nodes[j].id != st.nodes[k].id
    ensures VolumeOf(c, st.nodes[j].role, st.nodes[j].name) != Some(NodeVolumeName(c, st.nodes[k].name))
  {
    DistinctIds(st.nodes, c, d, j, k);
    assert st.nodes[j] in st.nodes && st.nodes[k] in st.nodes;
    NumberedOwner(st.nodes[j], c, d);
    NumberedOwner(st.nodes[k], c, d);
  }
}
