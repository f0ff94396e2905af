/** Rolling upgrade and rollback (provider/apple/upgrade.go). */
module Rolling {
  import opened Types
  import opened Names
  import opened Ordering
  import opened Recipes
  import opened Meaning
  import opened Records
  import opened World
  import opened Runtime
  import opened Fidelity
  import opened Frames
  import opened Lifecycle
  import opened EtcdTLS
  import opened Launches
  import opened Day2

  /** A rolling replacement: the cluster configuration to recreate nodes with, what agents join, and
      the token held so far. */
  datatype Roll = Roll(c: string, domain: string, cfg: ClusterConfig, url: string, nodes: seq<NodeInfo>, held: string)

  function OrderOf(roll: Roll): seq<NodeInfo> {
    UpgradeOrder(roll.nodes)
  }

  /** A server reconnects to the datastore; an agent needs its server. */
  function URLOf(roll: Roll, n: NodeInfo): string {
    if n.role.Agent? then roll.url else ""
  }

  function LaunchOf(roll: Roll, n: NodeInfo): Launch {
    NodeLaunch(roll.cfg, NodeConfigFromInfo(n), URLOf(roll, n), roll.domain, "")
  }

  /** The roll is over recorded nodes of its cluster, with an image to run. */
  ghost predicate Rollable(roll: Roll, d: string) {
    && Members(roll.nodes, roll.c, d) && Distinct(roll.nodes) && roll.domain == d
    && roll.cfg.name == roll.c && PlainImage(roll.cfg.image)
  }

  /** The launch runs the recorded node, at its recorded size, on the roll's image, network, token
      and endpoints. */
  ghost predicate AsRecorded(l: Launch, roll: Roll, n: NodeInfo) {
    Serves(l, roll.c, NodeConfigFromInfo(n), roll.domain, CommonOf(roll.cfg, roll.url))
  }

  /** The node serves again, recreated over the volume it had, as it is recorded. */
  ghost predicate Done(w0: World, w: World, roll: Roll, n: NodeInfo) {
    Recreated(w0, w, n.id, LaunchOf(roll, n)) && At(w, n.id).value.ready && AsRecorded(At(w, n.id).value.launch, roll, n)
  }

  /** The container runs what recreating the node by this record issues, the vector RecreateFidelity
      compares with the one it was first launched with. */
  ghost predicate RanAgain(w: World, st: ClusterState, n: NodeInfo, tlsDir: string, d: string) {
    At(w, n.id).Some? && ReadRun(RecreatedArgs(st, n, tlsDir, d)) == Some(At(w, n.id).value.launch)
  }

  /** The node's container is still the old one, or the new one on the volume it had. */
  ghost predicate MountKept(w0: World, w: World, roll: Roll, n: NodeInfo) {
    At(w, n.id).Some? ==>
      || SameRole(w0, w, n.id)
      || (At(w, n.id).value.launch == LaunchOf(roll, n)
          && (HasVolume(w0, LaunchOf(roll, n)) ==> Mounted(w, At(w, n.id).value, NamedVolume(LaunchOf(roll, n).volumes))))
  }

  /** The nodes before k are done, the one at k may be under way, the rest is as it was. */
  ghost predicate RolledTo(w0: World, w: World, roll: Roll, k: nat) {
    && k <= |OrderOf(roll)|
    && w.volumes == w0.volumes && w.root == w0.root && (w.files == w0.files || k == |OrderOf(roll)|)
    && (forall n | n in roll.nodes && !n.role.IsK3s() :: At(w, n.id) == At(w0, n.id))
    && (forall j: nat | j < k :: Done(w0, w, roll, OrderOf(roll)[j]))
    && (k < |OrderOf(roll)| ==> MountKept(w0, w, roll, OrderOf(roll)[k]))
    && (forall j: nat | k < j < |OrderOf(roll)| :: At(w, OrderOf(roll)[j].id) == At(w0, OrderOf(roll)[j].id))
  }

  /** What a rolling replacement keeps at every point. */
  ghost predicate Rolling(w0: World, w: World, roll: Roll) {
    exists k: nat :: RolledTo(w0, w, roll, k)
  }

  ghost function RollingFrom(w0: World, roll: Roll): World -> bool {
    w => Rolling(w0, w, roll)
  }

  ghost function RolledAt(w0: World, roll: Roll, k: nat): World -> bool {
    w => RolledTo(w0, w, roll, k)
  }

  ghost predicate Ready(w: World, n: NodeInfo) {
    Up(w, n.id) && At(w, n.id).value.ready
  }

  // ---------------------------------------------------------------------------------------
  // What it means
  // ---------------------------------------------------------------------------------------

  /** From a cluster whose k3s nodes are all ready, at most one of them is not at any point. */
  lemma OneNodeDown(w0: World, w: World, roll: Roll, a: NodeInfo, b: NodeInfo)
    requires Rolling(w0, w, roll) && forall n | n in roll.nodes && n.role.IsK3s() :: Ready(w0, n)
    requires a in roll.nodes && a.role.IsK3s() && !Ready(w, a)
    requires b in roll.nodes && b.role.IsK3s() && !Ready(w, b)
    ensures a == b
  {
    hide RolledTo;
    hide OrderOf;
    var k: nat :| RolledTo(w0, w, roll, k);
    OnlyKth(w0, w, roll, k, a);
    OnlyKth(w0, w, roll, k, b);
  }

  lemma OnlyKth(w0: World, w: World, roll: Roll, k: nat, a: NodeInfo)
    requires RolledTo(w0, w, roll, k) && forall n | n in roll.nodes && n.role.IsK3s() :: Ready(w0, n)
    requires a in roll.nodes && a.role.IsK3s() && !Ready(w, a)
    ensures k < |OrderOf(roll)| && a == OrderOf(roll)[k]
  {
    hide AsRecorded;
    hide LaunchOf;
    hide MountKept;
    var order := OrderOf(roll);
    assert a in order;
    var j: nat :| j < |order| && order[j] == a;
    assert j < k ==> Done(w0, w, roll, order[j]);
    assert j > k ==> At(w, order[j].id) == At(w0, order[j].id);
  }

  /** The nodes before k run the target image, those after it are unchanged. */
  ghost predicate HalfRolled(w0: World, w: World, roll: Roll, k: nat) {
    && k <= |OrderOf(roll)|
    && (forall j: nat | j < k :: Up(w, OrderOf(roll)[j].id) && At(w, OrderOf(roll)[j].id).value.launch.image == roll.cfg.image)
    && (forall j: nat | k < j < |OrderOf(roll)| :: At(w, OrderOf(roll)[j].id) == At(w0, OrderOf(roll)[j].id))
  }

  lemma RolledToMeans(w0: World, w: World, roll: Roll, k: nat)
    requires RolledTo(w0, w, roll, k)
    ensures HalfRolled(w0, w, roll, k)
    ensures SavedOf(w, roll.c) == SavedOf(w0, roll.c) || k == |OrderOf(roll)|
  {
    hide AsRecorded;
    hide MountKept;
    forall j: nat | j < k
      ensures Up(w, OrderOf(roll)[j].id) && At(w, OrderOf(roll)[j].id).value.launch.image == roll.cfg.image
    {
      assert Done(w0, w, roll, OrderOf(roll)[j]);
    }
  }

  /** Nodes before the one under way run the target image, nodes after it are unchanged; the
      datastore, the load balancer and every volume are never touched; the record changes only
      once every node runs the target image. */
  lemma RollingMeans(w0: World, w: World, roll: Roll)
    requires Rolling(w0, w, roll)
    ensures w.volumes == w0.volumes
    ensures forall n | n in roll.nodes && !n.role.IsK3s() :: At(w, n.id) == At(w0, n.id)
    ensures exists k: nat :: HalfRolled(w0, w, roll, k) && (SavedOf(w, roll.c) == SavedOf(w0, roll.c) || k == |OrderOf(roll)|)
  {
    var k: nat :| RolledTo(w0, w, roll, k);
    RolledToMeans(w0, w, roll, k);
  }

  // ---------------------------------------------------------------------------------------
  // Steps
  // ---------------------------------------------------------------------------------------

  lemma {:induction false} DistinctNoRepeats(nodes: seq<NodeInfo>)
    requires Distinct(nodes)
    ensures NoRepeats(nodes)
  {
    forall i, j | 0 <= i < j < |nodes|
      ensures nodes[i] != nodes[j]
    {
      assert nodes[i].name != nodes[j].name;
    }
  }

  lemma OrderApart(roll: Roll, d: string, i: nat, j: nat)
    requires Rollable(roll, d) && i < |OrderOf(roll)| && j < |OrderOf(roll)| && i != j
    ensures OrderOf(roll)[i].id != OrderOf(roll)[j].id
  {
    var servers, agents := WithRole(roll.nodes, Server), WithRole(roll.nodes, Agent);
    DistinctNoRepeats(roll.nodes);
    WithRoleNoRepeats(roll.nodes, Server);
    WithRoleNoRepeats(roll.nodes, Agent);
    var order := OrderOf(roll);
    assert order[i] in order && order[j] in order;
    assert forall s, a | s in servers && a in agents :: s != a;
    assert order[i] != order[j];
  }

  lemma OrderMember(roll: Roll, d: string, k: nat)
    requires Rollable(roll, d) && k < |OrderOf(roll)|
    ensures
      var n := OrderOf(roll)[k];
      && n in roll.nodes && n.role.IsK3s() && Numbered(n, roll.c, d) && Owned(n.id) == Node(roll.c, n.role)
      && Launchable(roll.cfg, NodeConfigFromInfo(n), roll.c, d)
      && LaunchOf(roll, n).names == [n.id] && NodeFQDN(n.name, d) == n.id
      && (forall m | m in roll.nodes && !m.role.IsK3s() :: m.id != n.id)
  {
    var n := OrderOf(roll)[k];
    assert n in OrderOf(roll) && n in roll.nodes;
    NumberedOwner(n, roll.c, d);
    var i: nat :| n.name == NodeName(roll.c, n.role, i);
    assert InfoOf(NodeConfigFromInfo(n), d, "").name == NodeName(roll.c, n.role, i);
    assert Numbered(InfoOf(NodeConfigFromInfo(n), d, ""), roll.c, d);
  }

  lemma LaunchIsRecorded(roll: Roll, d: string, k: nat)
    requires Rollable(roll, d) && k < |OrderOf(roll)|
    ensures AsRecorded(LaunchOf(roll, OrderOf(roll)[k]), roll, OrderOf(roll)[k])
  {
    hide Serves;
    hide NodeLaunch;
    hide Owned;
    hide Numbered;
    hide Launchable;
    hide NodeFQDN;
    OrderMember(roll, d, k);
    var n := OrderOf(roll)[k];
    NodeServes(roll.cfg, NodeConfigFromInfo(n), URLOf(roll, n), d, "");
    ServesAlike(LaunchOf(roll, n), roll.c, NodeConfigFromInfo(n), d, CommonOf(roll.cfg, URLOf(roll, n)), CommonOf(roll.cfg, roll.url));
  }

  /** Touching only the node under way keeps the phase. */
  lemma RollStep(w0: World, w: World, w': World, roll: Roll, k: nat)
    requires Rollable(roll, roll.domain) && RolledTo(w0, w, roll, k) && k < |OrderOf(roll)|
    requires OnlyContainer(w, w', OrderOf(roll)[k].id) && MountKept(w0, w', roll, OrderOf(roll)[k])
    ensures RolledTo(w0, w', roll, k)
  {
    hide Rollable;
    hide LaunchOf;
    hide OrderOf;
    hide NamedVolume;
    hide Owned;
    hide Numbered;
    hide Launchable;
    hide NodeFQDN;
    hide AsRecorded;
    OrderMember(roll, roll.domain, k);
    forall j: nat | j < |OrderOf(roll)| && j != k
      ensures At(w', OrderOf(roll)[j].id) == At(w, OrderOf(roll)[j].id)
    {
      OrderApart(roll, roll.domain, j, k);
    }
    forall j: nat | j < k
      ensures Done(w0, w', roll, OrderOf(roll)[j])
    {
      assert Done(w0, w, roll, OrderOf(roll)[j]);
    }
  }

  lemma MountKeptSame(w0: World, w: World, w': World, roll: Roll, n: NodeInfo)
    requires MountKept(w0, w, roll, n) && w'.volumes == w.volumes
    requires At(w', n.id).Some? ==> SameRole(w, w', n.id)
    ensures MountKept(w0, w', roll, n)
  {
    assert forall v :: Vol(w', v) == Vol(w, v);
  }

  lemma MountKeptPlaced(w0: World, w: World, roll: Roll, n: NodeInfo, boots: bool)
    requires LaunchOf(roll, n).names == [n.id] && w.volumes == w0.volumes
    ensures MountKept(w0, Placed(w, LaunchOf(roll, n), boots), roll, n)
  {
    assert forall v :: Vol(Placed(w, LaunchOf(roll, n), boots), v) == Vol(w0, v);
  }

  lemma RollRuns(w0: World, w: World, roll: Roll, k: nat, cmd: GuestCommand, ready: bool)
    requires Rollable(roll, roll.domain) && RolledTo(w0, w, roll, k) && k < |OrderOf(roll)|
    ensures
      var id := OrderOf(roll)[k].id;
      && RolledTo(w0, Ran(w, id, cmd), roll, k) && RolledTo(w0, Stopped(w, id), roll, k)
      && RolledTo(w0, Removed(w, id), roll, k) && RolledTo(w0, Readied(w, id, ready), roll, k)
  {
    var n := OrderOf(roll)[k];
    OnlyContainerSteps(w, n.id, cmd);
    OnlyContainerReadied(w, n.id, ready);
    SameRoleRuns(w, n.id, cmd);
    MountKeptSame(w0, w, Ran(w, n.id, cmd), roll, n);
    MountKeptSame(w0, w, Stopped(w, n.id), roll, n);
    MountKeptSame(w0, w, Removed(w, n.id), roll, n);
    MountKeptSame(w0, w, Readied(w, n.id, ready), roll, n);
    RollStep(w0, w, Ran(w, n.id, cmd), roll, k);
    RollStep(w0, w, Stopped(w, n.id), roll, k);
    RollStep(w0, w, Removed(w, n.id), roll, k);
    RollStep(w0, w, Readied(w, n.id, ready), roll, k);
  }

  lemma OnlyContainerReadied(w: World, id: string, ready: bool)
    ensures OnlyContainer(w, Readied(w, id, ready), id) && SameRole(w, Readied(w, id, ready), id)
  {
  }

  lemma RollPlaces(w0: World, w: World, roll: Roll, k: nat, boots: bool)
    requires Rollable(roll, roll.domain) && RolledTo(w0, w, roll, k) && k < |OrderOf(roll)|
    ensures RolledTo(w0, Placed(w, LaunchOf(roll, OrderOf(roll)[k]), boots), roll, k)
  {
    var n := OrderOf(roll)[k];
    OrderMember(roll, roll.domain, k);
    OnlyContainerPlaced(w, LaunchOf(roll, n), boots, n.id);
    MountKeptPlaced(w0, w, roll, n, boots);
    RollStep(w0, w, Placed(w, LaunchOf(roll, n), boots), roll, k);
  }

  lemma MayRoll(w0: World, roll: Roll, k: nat)
    requires Rollable(roll, roll.domain) && k < |OrderOf(roll)|
    ensures
      var n := OrderOf(roll)[k];
      MayRecreate(RolledAt(w0, roll, k), n.id, LaunchOf(roll, n)) && Implies(RolledAt(w0, roll, k), RollingFrom(w0, roll))
  {
    var q, n := RolledAt(w0, roll, k), OrderOf(roll)[k];
    OrderMember(roll, roll.domain, k);
    forall w, cmd {:trigger Ran(w, n.id, cmd)} | q(w)
      ensures q(Ran(w, n.id, cmd))
    {
      RollRuns(w0, w, roll, k, cmd, false);
    }
    forall w {:trigger Stopped(w, n.id)} | q(w)
      ensures q(Stopped(w, n.id))
    {
      RollRuns(w0, w, roll, k, Remount, false);
    }
    forall w {:trigger Removed(w, n.id)} | q(w)
      ensures q(Removed(w, n.id))
    {
      RollRuns(w0, w, roll, k, Remount, false);
    }
    forall w, boots {:trigger Placed(w, LaunchOf(roll, n), boots)} | q(w)
      ensures q(Placed(w, LaunchOf(roll, n), boots))
    {
      RollPlaces(w0, w, roll, k, boots);
    }
  }

  // ---------------------------------------------------------------------------------------
  // The orchestration
  // ---------------------------------------------------------------------------------------

  ghost predicate Stage(p: Provisioner, roll: Roll, w0: World)
    reads p`watch, p`scope
  {
    p.watch == RollingFrom(w0, roll) && p.scope == roll.c && Rollable(roll, p.domain)
  }

  lemma MayReady(p: Provisioner, roll: Roll, w0: World, k: nat, ready: bool)
    requires Stage(p, roll, w0) && RolledTo(w0, p.world, roll, k) && k < |OrderOf(roll)|
    ensures
      var n := OrderOf(roll)[k];
      && Owned(n.id).Of(p.scope) && Owned(n.id) == Node(roll.c, n.role) && n.role.IsK3s()
      && p.watch(Readied(p.world, n.id, ready)) && RolledTo(w0, Readied(p.world, n.id, ready), roll, k)
  {
    OrderMember(roll, p.domain, k);
    RollRuns(w0, p.world, roll, k, Remount, ready);
  }

  lemma ReadyIsDone(w0: World, w: World, roll: Roll, n: NodeInfo)
    requires Recreated(w0, w, n.id, LaunchOf(roll, n)) && AsRecorded(LaunchOf(roll, n), roll, n)
    ensures Done(w0, Readied(w, n.id, true), roll, n)
  {
    hide AsRecorded;
    assert forall v :: Vol(Readied(w, n.id, true), v) == Vol(w, v);
  }

  lemma RolledMore(w0: World, w: World, roll: Roll, k: nat)
    requires RolledTo(w0, w, roll, k) && k < |OrderOf(roll)| && Done(w0, w, roll, OrderOf(roll)[k])
    ensures RolledTo(w0, w, roll, k + 1) && w.files == w0.files
  {
    hide Done;
    hide LaunchOf;
    hide OrderOf;
    hide HasVolume;
    hide Mounted;
    if k + 1 < |OrderOf(roll)| {
      assert At(w, OrderOf(roll)[k + 1].id) == At(w0, OrderOf(roll)[k + 1].id);
    }
  }

  lemma DoneReady(w0: World, w: World, roll: Roll, k: nat)
    requires Rollable(roll, roll.domain) && RolledTo(w0, w, roll, k) && k < |OrderOf(roll)|
    requires Recreated(w0, w, OrderOf(roll)[k].id, LaunchOf(roll, OrderOf(roll)[k]))
    ensures RolledTo(w0, Readied(w, OrderOf(roll)[k].id, true), roll, k + 1)
    ensures Readied(w, OrderOf(roll)[k].id, true).files == w0.files == w.files
  {
    hide AsRecorded;
    RollRuns(w0, w, roll, k, Remount, true);
    LaunchIsRecorded(roll, roll.domain, k);
    ReadyIsDone(w0, w, roll, OrderOf(roll)[k]);
    RolledMore(w0, Readied(w, OrderOf(roll)[k].id, true), roll, k);
  }

  /** recreating node k, from the phase that has reached it. */
  method RecreateKth(p: Provisioner, roll: Roll, k: nat, ghost w0: World) returns (r: Result<NodeInfo>)
    requires p.Valid() && Stage(p, roll, w0) && RolledTo(w0, p.world, roll, k) && k < |OrderOf(roll)|
    modifies p`world, p`trace
    ensures p.Valid() && RolledTo(w0, p.world, roll, k)
    ensures r.Ok? ==> Recreated(w0, p.world, OrderOf(roll)[k].id, LaunchOf(roll, OrderOf(roll)[k]))
  {
    var n := OrderOf(roll)[k];
    OrderMember(roll, p.domain, k);
    MayRoll(w0, roll, k);
    ghost var w := p.world;
    r := RecreateNode(p, roll.c, roll.cfg, NodeConfigFromInfo(n), URLOf(roll, n), RolledAt(w0, roll, k));
    RecreatedSince(w0, w, p.world, n.id, LaunchOf(roll, n));
  }

  lemma RecreatedSince(w0: World, w: World, w': World, id: string, l: Launch)
    requires w.volumes == w0.volumes
    ensures Recreated(w, w', id, l) ==> Recreated(w0, w', id, l)
  {
  }

  /** rollOneNode and waitNodeReady. */
  method RollOneNode(p: Provisioner, roll: Roll, k: nat, ghost w0: World) returns (r: Outcome)
    requires p.Valid() && Stage(p, roll, w0) && RolledTo(w0, p.world, roll, k) && k < |OrderOf(roll)|
    modifies p`world, p`trace
    ensures p.Valid()
    ensures r.Pass? ==> RolledTo(w0, p.world, roll, k + 1) && p.world.files == w0.files
    ensures r.Fail? ==> RolledTo(w0, p.world, roll, k)
  {
    var n := OrderOf(roll)[k];
    MayReady(p, roll, w0, k, false);
    p.KubectlDelete(n.id);
    var recreated := RecreateKth(p, roll, k, w0);
    if recreated.Err? {
      return Fail(recreated.error);
    }
    if n.role.Server? {
      var addr := p.InspectIPv4(n.id);
      if addr.Err? {
        return Fail(addr.error);
      }
      :- p.Await();
    }
    MayReady(p, roll, w0, k, true);
    DoneReady(w0, p.world, roll, k);
    r := p.AwaitRegistered(n.id);
  }

  /** rollingReplace: one node at a time, servers before agents; then the addresses the new
      containers got are read back, where they can be. */
  method RollingReplace(p: Provisioner, roll: Roll, ghost w0: World) returns (r: Result<seq<NodeInfo>>)
    requires p.Valid() && Stage(p, roll, w0) && p.world == w0
    modifies p`world, p`trace
    ensures p.Valid()
    ensures r.Ok? ==> RolledTo(w0, p.world, roll, |OrderOf(roll)|) && p.world.files == w0.files && Readdressed(roll.nodes, r.value)
  {
    var order := UpgradeOrder(roll.nodes);
    RolledFirst(w0, roll, p.domain);
    hide *;
    for k := 0 to |order|
      invariant p.Valid() && RolledTo(w0, p.world, roll, k) && p.world.files == w0.files
    {
      var rolled := RollOneNode(p, roll, k, w0);
      if rolled.Fail? {
        return Err(rolled.error);
      }
    }
    var recorded := ReadBack(p, roll.nodes, order);
    r := Ok(recorded);
  }

  lemma RolledFirst(w0: World, roll: Roll, d: string)
    requires Rollable(roll, d)
    ensures UniqueIds(roll.nodes) && forall n | n in OrderOf(roll) :: n in roll.nodes
    ensures RolledTo(w0, w0, roll, 0) && OrderOf(roll) == UpgradeOrder(roll.nodes)
  {
  }

  method ReadBack(p: Provisioner, nodes: seq<NodeInfo>, order: seq<NodeInfo>) returns (recorded: seq<NodeInfo>)
    requires UniqueIds(nodes) && forall n | n in order :: n in nodes
    ensures Readdressed(nodes, recorded)
  {
    recorded := nodes;
    for k := 0 to |order|
      invariant Readdressed(nodes, recorded)
    {
      var addr := p.InspectIPv4(order[k].id);
      if addr.Ok? {
        ReaddressOne(nodes, recorded, order[k], [addr.value]);
        recorded := ReplaceNode(recorded, order[k].(ips := [addr.value]));
      }
    }
  }

  // ---------------------------------------------------------------------------------------
  // Upgrade and Rollback
  // ---------------------------------------------------------------------------------------

  /** The roll that takes a recorded cluster onto an image. */
  function RollOf(w: World, st: ClusterState, d: string, image: string): Roll {
    Roll(st.clusterName, d, ConfigFromState(st, ClientDir(w, st.clusterName)).(image := image), st.serverURL, st.nodes, st.token)
  }

  /** The record after a roll from st onto image. */
  function Upgraded(st: ClusterState, image: string, nodes: seq<NodeInfo>): ClusterState {
    st.(image := image, previousImage := ResolvedImage(st.image), nodes := nodes)
  }

  /** Rolling back undoes an upgrade of the image pins, and rolling back again undoes that. */
  lemma RollbackUndoes(st: ClusterState, image: string, nodes: seq<NodeInfo>, nodes': seq<NodeInfo>, nodes'': seq<NodeInfo>)
    requires image != ""
    ensures
      var up := Upgraded(st, image, nodes);
      var back := Upgraded(up, up.previousImage, nodes');
      && back.image == ResolvedImage(st.image) && back.previousImage == image
      && Upgraded(back, back.previousImage, nodes'') == up.(nodes := nodes'')
  {
    assert ResolvedImage(image) == image;
    assert ResolvedImage(ResolvedImage(st.image)) == ResolvedImage(st.image);
  }

  /** A recreated node is what the new record says, if the old one was what the old record
      said: the same volume, the new image and token, the same endpoints and bundle. */
  lemma RecreatedInPlace(w0: World, w: World, roll: Roll, st: ClusterState, st': ClusterState, n: NodeInfo, n': NodeInfo, d: string)
    requires InPlace(w0, n, st, d) && n.role.IsK3s() && Recreated(w0, w, n.id, LaunchOf(roll, n)) && Bare(n) == Bare(n')
    requires CleanText(roll.c) && Numbered(n, roll.c, d) && roll.domain == d && w.root == w0.root && HostPath(w.root)
    requires st.clusterName == st'.clusterName == roll.c && st'.datastoreEndpoint == st.datastoreEndpoint && st'.serverURL == roll.url
    requires roll.cfg == ConfigFromState(st, ClientDir(w0, roll.c)).(image := ResolvedImage(st'.image), token := st'.token)
    requires PlainImage(roll.cfg.image) && st'.network == st.network
    requires Managed(st') ==> FileAt(w0, TLSDir(w0.root, roll.c, CLIENT)).Some?
    ensures InPlace(w, n', st', d)
  {
    hide Suits;
    hide LaunchOf;
    hide Numbered;
    hide NodeVolumeName;
    hide TLSDir;
    SameNode(n, n');
    RecreatedSuits(w0, roll, st, st', n, n', d);
    assert Mounted(w0, At(w0, n.id).value, Some(NodeVolumeName(roll.c, n.name)));
  }

  lemma RecreatedSuits(w0: World, roll: Roll, st: ClusterState, st': ClusterState, n: NodeInfo, n': NodeInfo, d: string)
    requires n.role.IsK3s() && Bare(n) == Bare(n') && CleanText(roll.c) && Numbered(n, roll.c, d) && roll.domain == d && HostPath(w0.root)
    requires st.clusterName == st'.clusterName == roll.c && st'.datastoreEndpoint == st.datastoreEndpoint && st'.serverURL == roll.url
    requires roll.cfg == ConfigFromState(st, ClientDir(w0, roll.c)).(image := ResolvedImage(st'.image), token := st'.token)
    requires PlainImage(roll.cfg.image) && st'.network == st.network
    requires Managed(st') ==> FileAt(w0, TLSDir(w0.root, roll.c, CLIENT)).Some?
    ensures
      var l := LaunchOf(roll, n);
      && Suits(l, n', st', d, w0.root) && NamedVolume(l.volumes) == Some(NodeVolumeName(roll.c, n.name))
      && (Managed(st') && n.role.Server? ==> TLSSource(l.volumes) == Some(TLSDir(w0.root, roll.c, CLIENT)))
  {
    hide Serves;
    hide KeyedBy;
    hide NodeLaunch;
    hide Numbered;
    hide NodeFQDN;
    hide RunsMember;
    hide RunsProxy;
    hide ReadRun;
    hide NodeRunArgs;
    hide Owned;
    hide LabelValue;
    hide TLSDir;
    hide TLSSource;
    hide HostPath;
    hide CleanText;
    hide ResolvedImage;
    var node := NodeConfigFromInfo(n);
    SameNode(n, n');
    NodeReads(roll.cfg, n, URLOf(roll, n), d, "");
    if Managed(st') && n.role.Server? {
      RecreatedKeyed(w0, roll, n, d);
    }
    ServesAlike(LaunchOf(roll, n), roll.c, node, d, CommonOf(roll.cfg, URLOf(roll, n)), CommonIn(st'));
  }

  lemma RecreatedKeyed(w0: World, roll: Roll, n: NodeInfo, d: string)
    requires n.role.Server? && CleanText(roll.c) && roll.domain == d && HostPath(w0.root)
    requires roll.cfg.datastoreTLSDir == ClientDir(w0, roll.c) && roll.cfg.manifests == []
    requires FileAt(w0, TLSDir(w0.root, roll.c, CLIENT)).Some?
    ensures
      var l := LaunchOf(roll, n);
      && KeyedBy(l, NodeConfigFromInfo(n), TLSDir(w0.root, roll.c, CLIENT))
      && TLSSource(l.volumes) == Some(TLSDir(w0.root, roll.c, CLIENT))
  {
    hide KeyedBy;
    hide NodeLaunch;
    hide TLSDir;
    hide TLSSource;
    hide HostPath;
    hide CleanText;
    ClientPath(w0.root, roll.c);
    ServerLaunchTLS(roll.cfg, NodeConfigFromInfo(n), URLOf(roll, n), d, "");
    ServerKeyed(roll.cfg, NodeConfigFromInfo(n), URLOf(roll, n), d, "");
  }

  lemma RollFits(w: World, st: ClusterState, c: string, d: string, image: string)
    requires Shape(st, c, d) && PlainImage(image)
    ensures Rollable(RollOf(w, st, d, image), d)
  {
    ShapeUnique(st, c, d);
  }

  lemma RolledFaithful(w0: World, w: World, st: ClusterState, st': ClusterState, c: string, d: string, image: string)
    requires Shape(st, c, d) && Faithful(w0, st, d) && PlainImage(image) && HostPath(w0.root)
    requires st' == Upgraded(st, image, st'.nodes) && Readdressed(st.nodes, st'.nodes)
    requires var roll := RollOf(w0, st, d, image); RolledTo(w0, w, roll, |OrderOf(roll)|) && w.files == w0.files
    ensures Faithful(w, st', d)
  {
    hide Shape;
    hide Faithful;
    hide OrderOf;
    hide RolledTo;
    hide HostPath;
    var roll := RollOf(w0, st, d, image);
    AllDone(w0, w, roll);
    NewPins(w0, st, st', c, d, image);
    RecreatedFaithful(w0, w, roll, st, st', c, d);
  }

  lemma AllDone(w0: World, w: World, roll: Roll)
    requires RolledTo(w0, w, roll, |OrderOf(roll)|)
    ensures forall n | n in OrderOf(roll) :: Recreated(w0, w, n.id, LaunchOf(roll, n))
    ensures forall n | n in roll.nodes && !n.role.IsK3s() :: At(w, n.id) == At(w0, n.id)
    ensures w.volumes == w0.volumes && w.root == w0.root
  {
    hide Recreated;
    hide LaunchOf;
    forall n | n in OrderOf(roll)
      ensures Recreated(w0, w, n.id, LaunchOf(roll, n))
    {
      var j: nat :| j < |OrderOf(roll)| && OrderOf(roll)[j] == n;
      assert Done(w0, w, roll, OrderOf(roll)[j]);
    }
  }

  lemma NewPins(w0: World, st: ClusterState, st': ClusterState, c: string, d: string, image: string)
    requires Shape(st, c, d) && PlainImage(image) && st' == Upgraded(st, image, st'.nodes)
    ensures Pins(w0, RollOf(w0, st, d, image), st, st', d)
  {
    hide AllNumbered;
    hide Distinct;
    hide Quorum;
    hide Fronted;
  }

  /** The roll's configuration is the old record's with the new record's pins. */
  ghost predicate Pins(w0: World, roll: Roll, st: ClusterState, st': ClusterState, d: string) {
    && st.clusterName == st'.clusterName == roll.c && st'.datastoreEndpoint == st.datastoreEndpoint
    && st'.network == st.network && st'.datastoreImage == st.datastoreImage
    && st'.serverURL == roll.url && roll.domain == d && roll.nodes == st.nodes
    && roll.cfg == ConfigFromState(st, ClientDir(w0, roll.c)).(image := ResolvedImage(st'.image), token := st'.token)
    && PlainImage(roll.cfg.image)
  }

  /** Recreating every k3s node makes a faithful record faithful with the new pins. */
  lemma RecreatedFaithful(w0: World, w: World, roll: Roll, st: ClusterState, st': ClusterState, c: string, d: string)
    requires Shape(st, c, d) && Faithful(w0, st, d) && HostPath(w0.root) && Readdressed(st.nodes, st'.nodes)
    requires Pins(w0, roll, st, st', d)
    requires w.volumes == w0.volumes && w.root == w0.root && w.files == w0.files
    requires forall n | n in OrderOf(roll) :: Recreated(w0, w, n.id, LaunchOf(roll, n))
    requires forall n | n in roll.nodes && !n.role.IsK3s() :: At(w, n.id) == At(w0, n.id)
    ensures Faithful(w, st', d)
  {
    hide InPlace;
    hide LaunchOf;
    hide Shape;
    hide Recreated;
    ReaddressedRole(st.nodes, st'.nodes, Datastore);
    forall n' | n' in st'.nodes
      ensures InPlace(w, n', st', d)
    {
      var k :| 0 <= k < |st'.nodes| && st'.nodes[k] == n';
      StillInPlace(w0, w, roll, st, st', c, d, k);
    }
  }

  lemma StillInPlace(w0: World, w: World, roll: Roll, st: ClusterState, st': ClusterState, c: string, d: string, k: nat)
    requires Shape(st, c, d) && Faithful(w0, st, d) && HostPath(w0.root) && Readdressed(st.nodes, st'.nodes)
    requires Pins(w0, roll, st, st', d) && k < |st'.nodes| && |WithRole(st'.nodes, Datastore)| == |WithRole(st.nodes, Datastore)|
    requires w.volumes == w0.volumes && w.root == w0.root
    requires forall n | n in OrderOf(roll) :: Recreated(w0, w, n.id, LaunchOf(roll, n))
    requires forall n | n in roll.nodes && !n.role.IsK3s() :: At(w, n.id) == At(w0, n.id)
    ensures InPlace(w, st'.nodes[k], st', d)
  {
    hide InPlace;
    hide LaunchOf;
    hide Recreated;
    hide Numbered;
    var n, n' := st.nodes[k], st'.nodes[k];
    SameNode(n, n');
    assert n in st.nodes && InPlace(w0, n, st, d) && Numbered(n, c, d);
    if n.role.IsK3s() {
      assert n in OrderOf(roll);
      RecreatedInPlace(w0, w, roll, st, st', n, n', d);
    } else {
      UntouchedInPlace(w0, w, st, st', n, n', d);
    }
  }

  /** A node that is not a k3s node and was not touched is what any new pins still say. */
  lemma UntouchedInPlace(w0: World, w: World, st: ClusterState, st': ClusterState, n: NodeInfo, n': NodeInfo, d: string)
    requires InPlace(w0, n, st, d) && !n.role.IsK3s() && Bare(n) == Bare(n')
    requires At(w, n.id) == At(w0, n.id) && w.volumes == w0.volumes && w.root == w0.root
    requires st.clusterName == st'.clusterName && |WithRole(st'.nodes, Datastore)| == |WithRole(st.nodes, Datastore)|
    requires st'.network == st.network && st'.datastoreImage == st.datastoreImage
    ensures InPlace(w, n', st', d)
  {
    hide Suits;
    hide EtcdMesh;
    hide EtcdCommand;
    SameNode(n, n');
    assert forall v :: Vol(w, v) == Vol(w0, v);
    SuitsSame(At(w0, n.id).value.launch, n, n', st, st', d, w.root);
  }

  /** What a successful roll leaves: every k3s node recreated on the image and ready, in a record
      that differs in the pins and addresses only. */
  ghost predicate RollDone(w0: World, w: World, st: ClusterState, st': ClusterState, d: string, image: string) {
    var roll := RollOf(w0, st, d, image);
    var done :=
      && SavedOf(w, st.clusterName) == Present(st')
      && st' == Upgraded(st, image, st'.nodes) && Readdressed(st.nodes, st'.nodes)
      && RolledTo(w0, w, roll, |OrderOf(roll)|)
      && (forall n | n in st.nodes && n.role.IsK3s() :: RanAgain(w, st.(image := image), n, ClientDir(w0, st.clusterName), d))
      && (Faithful(w0, st, d) ==> Faithful(w, st', d));
    done
  }

  /** A roll's configuration is the one a recreation from the pinned record uses. */
  lemma LaunchedAgain(w: World, roll: Roll, st: ClusterState, n: NodeInfo, tlsDir: string, d: string)
    requires At(w, n.id).Some? && At(w, n.id).value.launch == LaunchOf(roll, n) && roll.domain == d
    requires roll.cfg == ConfigFromState(st, tlsDir) && roll.url == st.serverURL && PlainImage(roll.cfg.image)
    ensures RanAgain(w, st, n, tlsDir, d)
  {
    hide NodeRunArgs;
    hide NodeLaunch;
    hide ReadRun;
    NodeRunReads(roll.cfg, NodeConfigFromInfo(n), URLOf(roll, n), d, "");
  }

  lemma RolledAgain(w0: World, w: World, st: ClusterState, d: string, image: string)
    requires var roll := RollOf(w0, st, d, image); RolledTo(w0, w, roll, |OrderOf(roll)|)
    requires PlainImage(image)
    ensures forall n | n in st.nodes && n.role.IsK3s() :: RanAgain(w, st.(image := image), n, ClientDir(w0, st.clusterName), d)
  {
    hide RolledTo;
    hide LaunchOf;
    hide ClientDir;
    var roll := RollOf(w0, st, d, image);
    AllDone(w0, w, roll);
    forall n | n in st.nodes && n.role.IsK3s()
      ensures RanAgain(w, st.(image := image), n, ClientDir(w0, st.clusterName), d)
    {
      assert n in OrderOf(roll);
      LaunchedAgain(w, roll, st.(image := image), n, ClientDir(w0, st.clusterName), d);
    }
  }

  lemma SavedRoll(w0: World, w: World, w': World, st: ClusterState, st': ClusterState, c: string, d: string, image: string)
    requires Shape(st, c, d) && PlainImage(image) && HostPath(w0.root)
    requires st' == Upgraded(st, image, st'.nodes) && Readdressed(st.nodes, st'.nodes)
    requires var roll := RollOf(w0, st, d, image); RolledTo(w0, w, roll, |OrderOf(roll)|) && w.files == w0.files
    requires w' == Written(w, StatePath(w.root, c), Record(st'))
    ensures RollDone(w0, w', st, st', d, image)
  {
    hide Shape;
    hide Faithful;
    hide RolledTo;
    hide OrderOf;
    hide RanAgain;
    ShapeNamed(st, c, d);
    RolledWritten(w0, w, RollOf(w0, st, d, image), StatePath(w.root, c), Record(st'));
    RolledAgain(w0, w', st, d, image);
    if Faithful(w0, st, d) {
      RolledFaithful(w0, w, st, st', c, d, image);
      FaithfulSaved(w, st', c, d, Record(st'));
    }
  }

  lemma RolledWritten(w0: World, w: World, roll: Roll, path: string, file: File)
    requires RolledTo(w0, w, roll, |OrderOf(roll)|)
    ensures RolledTo(w0, Written(w, path, file), roll, |OrderOf(roll)|)
  {
    hide AsRecorded;
    var w' := Written(w, path, file);
    assert forall x :: At(w', x) == At(w, x);
    assert forall v :: Vol(w', v) == Vol(w, v);
    forall j: nat | j < |OrderOf(roll)|
      ensures Done(w0, w', roll, OrderOf(roll)[j])
    {
      assert Done(w0, w, roll, OrderOf(roll)[j]);
    }
  }

  lemma MayPin(p: Provisioner, roll: Roll, w0: World, c: string, st: ClusterState, st': ClusterState, image: string)
    requires p.Valid() && Stage(p, roll, w0) && RolledTo(w0, p.world, roll, |OrderOf(roll)|)
    requires Shape(st, c, p.domain) && PlainImage(image) && st' == Upgraded(st, image, st'.nodes) && Readdressed(st.nodes, st'.nodes)
    ensures Shape(st', c, p.domain)
    ensures forall path, file {:trigger Written(p.world, path, file)} :: p.watch(Written(p.world, path, file))
  {
    assert DEFAULT_K3S_IMAGE[0] == 'r';
    ShapeReaddressed(st, st', c, p.domain);
    forall path, file {:trigger Written(p.world, path, file)}
      ensures p.watch(Written(p.world, path, file))
    {
      RolledWritten(w0, p.world, roll, path, file);
    }
  }

  /** The roll and the new pins, common to upgrade and rollback. */
  method RollOnto(p: Provisioner, c: string, st: ClusterState, image: string, ghost w0: World) returns (r: Result<ClusterState>)
    requires p.Valid() && p.world == w0 && p.scope == c && SavedOf(w0, c) == Present(st) && PlainImage(image)
    requires p.watch == RollingFrom(w0, RollOf(w0, st, p.domain, image))
    modifies p`world, p`trace
    ensures p.Valid()
    ensures r.Ok? ==> RollDone(w0, p.world, st, r.value, p.domain, image)
  {
    p.Now();
    var roll := RollOf(p.world, st, p.domain, image);
    RollFits(w0, st, c, p.domain, image);
    var nodes :- RollingReplace(p, roll, w0);
    r := Pin(p, c, st, image, nodes, w0);
  }

  method Pin(p: Provisioner, c: string, st: ClusterState, image: string, nodes: seq<NodeInfo>, ghost w0: World) returns (r: Result<ClusterState>)
    requires p.Valid() && p.scope == c && st.clusterName == c && Shape(st, c, p.domain) && PlainImage(image) && HostPath(w0.root)
    requires Stage(p, RollOf(w0, st, p.domain, image), w0)
    requires RolledTo(w0, p.world, RollOf(w0, st, p.domain, image), |OrderOf(RollOf(w0, st, p.domain, image))|)
    requires p.world.files == w0.files && Readdressed(st.nodes, nodes)
    modifies p`world, p`trace
    ensures p.Valid()
    ensures r.Ok? ==> RollDone(w0, p.world, st, r.value, p.domain, image)
  {
    var st' := Upgraded(st, image, nodes);
    assert st'.clusterName == c;
    hide *;
    ghost var w := p.world;
    MayPin(p, RollOf(w0, st, p.domain, image), w0, c, st, st', image);
    var saved := p.SaveState(st');
    if saved.Fail? {
      return Err(saved.error);
    }
    SavedRoll(w0, w, p.world, st, st', c, p.domain, image);
    r := Ok(st');
  }

  lemma EveryRollPoint(p: Provisioner, w0: World, roll: Roll)
    requires p.Valid() && p.watch == RollingFrom(w0, roll)
    ensures forall k: nat | k < |p.trace| :: Rolling(w0, p.trace[k], roll)
  {
    forall k: nat | k < |p.trace|
      ensures Rolling(w0, p.trace[k], roll)
    {
      p.Then(k);
    }
  }

  lemma RollStarts(w: World, roll: Roll)
    ensures RollingFrom(w, roll)(w)
  {
    assert RolledTo(w, w, roll, 0);
  }

  /** Upgrade. */
  method Upgrade(p: Provisioner, c: string, newImage: string, force: bool) returns (r: Result<ClusterState>)
    requires Tidy(p.world) && Lawful(p.world, c, p.domain) && UsableImage(newImage)
    modifies p
    ensures p.Valid() && p.scope == c && p.origin == old(p.world)
    ensures SavedOf(old(p.world), c).Present? ==>
              forall k: nat | k < |p.trace| ::
                Rolling(old(p.world), p.trace[k], RollOf(old(p.world), SavedOf(old(p.world), c).state, p.domain, newImage))
    ensures newImage == "" || !force ==> r.Err? && p.world == old(p.world)
    ensures r.Ok? ==>
      && SavedOf(old(p.world), c).Present?
      && RollDone(old(p.world), p.world, SavedOf(old(p.world), c).state, r.value, p.domain, newImage)
  {
    p.Begin(c, Anything());
    ghost var w0 := p.world;
    var loaded := p.LoadState(c);
    if SavedOf(w0, c).Present? {
      RollStarts(w0, RollOf(w0, SavedOf(w0, c).state, p.domain, newImage));
      p.Begin(c, RollingFrom(w0, RollOf(w0, SavedOf(w0, c).state, p.domain, newImage)));
    }
    if newImage == "" {
      r := Err(NoTargetImage);
    } else if loaded.Err? {
      r := Err(loaded.error);
    } else if !force {
      r := Err(NotForced);
    } else {
      r := RollOnto(p, c, loaded.value, newImage, w0);
    }
    if SavedOf(w0, c).Present? {
      EveryRollPoint(p, w0, RollOf(w0, SavedOf(w0, c).state, p.domain, newImage));
    }
  }

  /** Rollback. */
  method Rollback(p: Provisioner, c: string, force: bool) returns (r: Result<ClusterState>)
    requires Tidy(p.world) && Lawful(p.world, c, p.domain)
    modifies p
    ensures p.Valid() && p.scope == c && p.origin == old(p.world)
    ensures SavedOf(old(p.world), c).Present? ==>
              var st := SavedOf(old(p.world), c).state;
              forall k: nat | k < |p.trace| :: Rolling(old(p.world), p.trace[k], RollOf(old(p.world), st, p.domain, st.previousImage))
    ensures !force ==> r.Err? && p.world == old(p.world)
    ensures r.Ok? ==>
      && SavedOf(old(p.world), c).Present?
      && var st := SavedOf(old(p.world), c).state;
      st.previousImage != "" && RollDone(old(p.world), p.world, st, r.value, p.domain, st.previousImage)
  {
    p.Begin(c, Anything());
    ghost var w0 := p.world;
    var loaded := p.LoadState(c);
    if SavedOf(w0, c).Present? {
      var st := SavedOf(w0, c).state;
      RollStarts(w0, RollOf(w0, st, p.domain, st.previousImage));
      p.Begin(c, RollingFrom(w0, RollOf(w0, st, p.domain, st.previousImage)));
    }
    if loaded.Err? {
      r := Err(loaded.error);
    } else if loaded.value.previousImage == "" {
      r := Err(NoPreviousImage);
    } else if !force {
      r := Err(NotForced);
    } else {
      r := RollOnto(p, c, loaded.value, loaded.value.previousImage, w0);
    }
    if SavedOf(w0, c).Present? {
      EveryRollPoint(p, w0, RollOf(w0, SavedOf(w0, c).state, p.domain, SavedOf(w0, c).state.previousImage));
    }
  }
}
