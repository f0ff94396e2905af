/** What create and the add operations share (provider/apple/create.go): new volumes behind the
    stale-state guard, and nodes that only ever mount those. */
module Bringup {
  import opened Types
  import opened Text
  import opened Names
  import opened Ordering
  import opened Recipes
  import opened Records
  import opened World
  import opened Runtime
  import opened Fidelity
  import opened Frames
  import opened LoadBalancer

  const STATEFUL: set<Role> := {Server, Agent, Datastore}

  /** Every node of cluster c made since t mounts a volume made since t. */
  ghost predicate FreshMounts(w: World, c: string, t: nat) {
    forall id | At(w, id).Some? && Keeps(Owned(id), STATEFUL) && Owned(id).cluster == c && At(w, id).value.made >= t ::
      At(w, id).value.mount.Some? && At(w, id).value.mount.value >= t
  }

  /** What was there is there as it was, but for the container spare, which may have been
      restarted; no file is gone. */
  ghost predicate Grown(w0: World, w: World, spare: string) {
    && w.root == w0.root && w0.clock <= w.clock
    && (forall id :: At(w0, id).Some? && id != spare ==> At(w, id) == At(w0, id))
    && (At(w0, spare).Some? ==> SameRole(w0, w, spare))
    && (forall v :: Vol(w0, v).Some? ==> Vol(w, v) == Vol(w0, v))
    && (forall path :: FileAt(w0, path).Some? ==> FileAt(w, path).Some?)
  }

  /** What adding nodes keeps at every point. */
  ghost predicate Adding(w0: World, w: World, c: string, spare: string) {
    Grown(w0, w, spare) && FreshMounts(w, c, w0.clock)
  }

  ghost function AddingFrom(w0: World, c: string, spare: string): World -> bool {
    w => Adding(w0, w, c, spare)
  }

  lemma AddingStarts(w: World, c: string, spare: string)
    requires Tidy(w)
    ensures AddingFrom(w, c, spare)(w)
  {
  }

  lemma SameServerNames(a: seq<NodeInfo>, b: seq<NodeInfo>)
    requires Readdressed(a, b)
    ensures ServerNames(a) == ServerNames(b)
  {
    ReaddressedRole(a, b, Server);
    var x, y := WithRole(a, Server), WithRole(b, Server);
    forall k | 0 <= k < |x|
      ensures x[k].name == y[k].name
    {
      SameNode(x[k], y[k]);
    }
  }

  /** The text is the configuration over the servers of these nodes, in order, and HAProxy takes
      the API port to theirs by it, as long as the domain splits no lines or fields. */
  ghost predicate Spreads(text: string, c: string, nodes: seq<NodeInfo>, d: string) {
    && text == APILBConfig(c, ServerNames(nodes), d)
    && (Solid(d) ==> Routes(text, HostsOf(ServerNames(nodes), d)))
  }

  lemma ConfigSpreads(c: string, nodes: seq<NodeInfo>, d: string)
    requires CleanText(c) && forall name | name in ServerNames(nodes) :: CleanText(name)
    ensures Spreads(APILBConfig(c, ServerNames(nodes), d), c, nodes, d)
  {
    hide APILBConfig;
    hide Routes;
    hide HostsOf;
    if Solid(d) {
      ConfigRoutes(c, ServerNames(nodes), d);
    }
  }

  lemma CleanServers(nodes: seq<NodeInfo>, c: string, d: string)
    requires CleanText(c) && AllNumbered(nodes, c, d)
    ensures forall name | name in ServerNames(nodes) :: CleanText(name)
  {
    hide Numbered;
    forall name | name in ServerNames(nodes)
      ensures CleanText(name)
    {
      var k :| 0 <= k < |ServerNames(nodes)| && ServerNames(nodes)[k] == name;
      assert WithRole(nodes, Server)[k] in WithRole(nodes, Server);
      NumberedOwner(WithRole(nodes, Server)[k], c, d);
    }
  }

  /** Each recorded load balancer runs on a configuration that spreads over exactly the recorded
      servers, in order. */
  ghost predicate Balanced(w: World, st: ClusterState, d: string) {
    forall n | n in st.nodes && n.role.LB? ::
      && Up(w, n.id) && At(w, n.id).value.config.Some?
      && Spreads(At(w, n.id).value.config.value, st.clusterName, st.nodes, d)
  }

  lemma SavedBalanced(w: World, w': World, st: ClusterState, d: string)
    requires Balanced(w, st, d) && w'.containers == w.containers
    ensures Balanced(w', st, d)
  {
    hide Spreads;
  }

  /** The recorded endpoint's host is the load balancer's container, its port the one the load
      balancer takes connections on, and they lead to the API port of each recorded server's
      container, in order, and nowhere else. */
  lemma EndpointLeads(w: World, st: ClusterState, c: string, d: string, n: NodeInfo)
    requires Shape(st, c, d) && Balanced(w, st, d) && Solid(d) && n in st.nodes && n.role.LB?
    ensures st.serverURL == HttpsURL(n.id, "6443") && Up(w, n.id) && At(w, n.id).value.config.Some?
    ensures
      var text, servers := At(w, n.id).value.config.value, WithRole(st.nodes, Server);
      && Said(text, "", "frontend k3s-api", "bind") == ["*:" + "6443"]
      && exists hosts: seq<string> ::
           Routes(text, hosts) && |hosts| == |servers| && forall k: nat | k < |servers| :: hosts[k] == servers[k].id
  {
    hide Routes;
    hide APILBConfig;
    hide Quorum;
    hide HttpsURL;
    hide Said;
    hide NodeFQDN;
    var text, hosts := At(w, n.id).value.config.value, HostsOf(ServerNames(st.nodes), d);
    LBHost(st, c, d, n);
    RoutesBound(text, hosts);
    forall k: nat | k < |WithRole(st.nodes, Server)|
      ensures hosts[k] == WithRole(st.nodes, Server)[k].id
    {
      assert WithRole(st.nodes, Server)[k] in st.nodes;
    }
  }

  lemma LBHost(st: ClusterState, c: string, d: string, n: NodeInfo)
    requires Shape(st, c, d) && n in st.nodes && n.role.LB?
    ensures st.clusterName == c && st.serverURL == HttpsURL(n.id, "6443")
  {
    hide Quorum;
    hide HttpsURL;
    assert n in WithRole(st.nodes, LB) && Numbered(n, c, d);
    assert ClusterAPIFQDN(c, d) == NodeFQDN(ApiLBName(c), d);
  }

  lemma RoutesBound(text: string, hosts: seq<string>)
    requires Routes(text, hosts)
    ensures Said(text, "", "frontend k3s-api", "bind") == ["*:" + "6443"]
  {
    hide Said;
    assert "*:" + "6443" == "*:6443";
  }

  // ---------------------------------------------------------------------------------------
  // Volumes
  // ---------------------------------------------------------------------------------------

  /** Making a volume that was not there cannot break p. */
  ghost predicate VolumesFree(p: World -> bool) {
    forall w, v, labels {:trigger VolumeMade(w, v, labels)} :: p(w) && Vol(w, v).None? ==> p(VolumeMade(w, v, labels))
  }

  lemma AddingVolumesFree(w0: World, c: string, spare: string)
    ensures VolumesFree(AddingFrom(w0, c, spare))
  {
    forall w, v, labels {:trigger VolumeMade(w, v, labels)} | Adding(w0, w, c, spare) && Vol(w, v).None?
      ensures Adding(w0, VolumeMade(w, v, labels), c, spare)
    {
      var w' := VolumeMade(w, v, labels);
      assert forall x :: At(w', x) == At(w, x);
      assert forall x :: FileAt(w', x) == FileAt(w, x);
      assert forall x :: x != v ==> Vol(w', x) == Vol(w, x);
    }
  }

  ghost predicate FreshVolume(w: World, v: string, t: nat) {
    Vol(w, v).Some? && Vol(w, v).value.born >= t
  }

  ghost predicate FirstFresh(w: World, c: string, nodes: seq<NodeConfig>, t: nat, i: nat) {
    i <= |nodes| && forall k: nat | k < i :: FreshVolume(w, NodeVolumeName(c, nodes[k].name), t)
  }

  /** Volumes may be new; nothing else differs. */
  ghost predicate OnlyVolumes(w0: World, w: World) {
    && w.containers == w0.containers && w.files == w0.files && w.root == w0.root && w0.clock <= w.clock
    && forall v :: Vol(w0, v).Some? ==> Vol(w, v) == Vol(w0, v)
  }

  /** Numbered k3s nodes of the cluster. */
  ghost predicate K3sNodes(nodes: seq<NodeConfig>, c: string, d: string) {
    CleanText(c) && forall n | n in nodes :: n.role.IsK3s() && Numbered(InfoOf(n, d, ""), c, d)
  }

  lemma OwnVolume(nodes: seq<NodeConfig>, c: string, d: string, i: nat)
    requires K3sNodes(nodes, c, d) && i < |nodes|
    ensures OwnedVolume(NodeVolumeName(c, nodes[i].name)) == Node(c, nodes[i].role)
  {
    assert nodes[i] in nodes;
    NumberedOwner(InfoOf(nodes[i], d, ""), c, d);
  }

  lemma FreshMore(w: World, w': World, c: string, nodes: seq<NodeConfig>, t: nat, i: nat)
    requires FirstFresh(w, c, nodes, t, i) && i < |nodes| && t <= w.clock
    requires w' == VolumeMade(w, NodeVolumeName(c, nodes[i].name), VolumeLabels(c)) && Vol(w, NodeVolumeName(c, nodes[i].name)).None?
    ensures FirstFresh(w', c, nodes, t, i + 1) && OnlyVolumes(w, w')
  {
    forall k: nat | k < i
      ensures FreshVolume(w', NodeVolumeName(c, nodes[k].name), t)
    {
      assert FreshVolume(w, NodeVolumeName(c, nodes[k].name), t);
    }
  }

  lemma OnlyVolumesMore(w0: World, w: World, w': World)
    requires OnlyVolumes(w0, w) && OnlyVolumes(w, w')
    ensures OnlyVolumes(w0, w')
  {
  }

  lemma OnlyVolumesMade(w: World, v: string, labels: seq<string>)
    requires Vol(w, v).None?
    ensures OnlyVolumes(w, VolumeMade(w, v, labels))
  {
  }

  /** One round of prepareNodeVolumes: refuse a volume that is there, else make it. */
  method PrepareVolume(p: Provisioner, c: string, v: string) returns (r: Outcome)
    requires p.Valid() && p.scope == c && VolumesFree(p.watch)
    requires OwnedVolume(v).Node? && OwnedVolume(v).cluster == c
    modifies p`world, p`trace
    ensures p.Valid() && OnlyVolumes(old(p.world), p.world)
    ensures r.Pass? ==> Vol(old(p.world), v).None? && p.world == VolumeMade(old(p.world), v, VolumeLabels(c))
    ensures r.Fail? && r.error.StaleVolume? ==> Vol(old(p.world), v).Some? && p.world == old(p.world)
    ensures r.Fail? ==> !r.error.BadManifest?
  {
    var present := p.VolumeExists(v);
    if present.Err? {
      return Fail(CliFailed);
    }
    if present.value {
      return Fail(StaleVolume(v));
    }
    p.Now();
    LabelsRead(c, Datastore);
    OnlyVolumesMade(p.world, v, VolumeLabels(c));
    r := p.VolumeCreate(v, VolumeLabels(c));
    if r.Fail? {
      r := Fail(CliFailed);
    }
  }

  /** What the guard leaves when it refuses: the volumes made before it came to the one that was
      there, so nothing exactly when that was the first. */
  ghost predicate Refused(w0: World, w: World, c: string, nodes: seq<NodeConfig>) {
    && nodes != [] && OnlyVolumes(w0, w)
    && (w == w0 <==> Vol(w0, NodeVolumeName(c, nodes[0].name)).Some?)
    && (|nodes| == 1 ==> w == w0)
  }

  lemma RefusedAt(w0: World, w: World, c: string, nodes: seq<NodeConfig>, i: nat)
    requires i < |nodes| && OnlyVolumes(w0, w) && FirstFresh(w, c, nodes, w0.clock, i)
    requires i == 0 ==> w == w0
    requires i > 0 ==> Vol(w0, NodeVolumeName(c, nodes[0].name)).None?
    ensures Vol(w, NodeVolumeName(c, nodes[i].name)).Some? ==> Refused(w0, w, c, nodes)
  {
  }

  /** prepareNodeVolumes. */
  method PrepareNodeVolumes(p: Provisioner, c: string, nodes: seq<NodeConfig>) returns (r: Outcome)
    requires p.Valid() && p.scope == c && VolumesFree(p.watch) && K3sNodes(nodes, c, p.domain)
    modifies p`world, p`trace
    ensures p.Valid() && OnlyVolumes(old(p.world), p.world)
    ensures r.Pass? ==> FirstFresh(p.world, c, nodes, old(p.world).clock, |nodes|)
    ensures r.Fail? && r.error.StaleVolume? ==> Refused(old(p.world), p.world, c, nodes)
    ensures r.Fail? ==> !r.error.BadManifest?
  {
    ghost var w0 := p.world;
    assert OnlyVolumes(w0, w0) && FirstFresh(w0, c, nodes, w0.clock, 0);
    hide *;
    for i := 0 to |nodes|
      invariant p.Valid() && OnlyVolumes(w0, p.world) && FirstFresh(p.world, c, nodes, w0.clock, i)
      invariant i == 0 ==> p.world == w0
      invariant i > 0 ==> Vol(w0, NodeVolumeName(c, nodes[0].name)).None?
    {
      OwnVolume(nodes, c, p.domain, i);
      ghost var w := p.world;
      r := PrepareVolume(p, c, NodeVolumeName(c, nodes[i].name));
      OnlyVolumesMore(w0, w, p.world);
      if r.Fail? {
        RefusedAt(w0, w, c, nodes, i);
        return;
      }
      LaterClock(w0, w);
      FreshMore(w, p.world, c, nodes, w0.clock, i);
    }
    r := Pass;
  }

  lemma LaterClock(w0: World, w: World)
    requires OnlyVolumes(w0, w)
    ensures w0.clock <= w.clock
  {
  }

  // ---------------------------------------------------------------------------------------
  // Containers
  // ---------------------------------------------------------------------------------------

  /** Launching a node whose volume is new. */
  lemma AddingPlaced(w0: World, w: World, c: string, spare: string, l: Launch, boots: bool)
    requires Adding(w0, w, c, spare) && l.names != [] && At(w, l.names[0]).None? && (At(w0, spare).Some? ==> l.names[0] != spare)
    requires Keeps(Owned(l.names[0]), STATEFUL) ==> NamedVolume(l.volumes).Some? && FreshVolume(w, NamedVolume(l.volumes).value, w0.clock)
    ensures Adding(w0, Placed(w, l, boots), c, spare)
  {
    var w' := Placed(w, l, boots);
    assert forall x :: x != l.names[0] ==> At(w', x) == At(w, x);
    assert forall v :: Vol(w', v) == Vol(w, v);
    assert forall path :: FileAt(w', path) == FileAt(w, path);
  }

  lemma AddingRan(w0: World, w: World, c: string, spare: string, id: string, cmd: GuestCommand)
    requires Adding(w0, w, c, spare) && (At(w0, id).None? || id == spare)
    ensures Adding(w0, Ran(w, id, cmd), c, spare)
  {
    var w' := Ran(w, id, cmd);
    assert forall x :: x != id ==> At(w', x) == At(w, x);
    assert forall v :: Vol(w', v) == Vol(w, v);
    assert forall path :: FileAt(w', path) == FileAt(w, path);
  }

  lemma AddingSteady(w0: World, c: string, spare: string, id: string)
    requires At(w0, id).None? || id == spare
    ensures Steady(AddingFrom(w0, c, spare), id)
  {
    forall w, cmd {:trigger Ran(w, id, cmd)} | Adding(w0, w, c, spare)
      ensures Adding(w0, Ran(w, id, cmd), c, spare)
    {
      AddingRan(w0, w, c, spare, id, cmd);
    }
  }

  lemma AddingWritten(w0: World, w: World, c: string, spare: string, path: string, file: File)
    requires Adding(w0, w, c, spare)
    ensures Adding(w0, Written(w, path, file), c, spare)
  {
    var w' := Written(w, path, file);
    assert forall x :: At(w', x) == At(w, x);
    assert forall v :: Vol(w', v) == Vol(w, v);
    assert forall x :: FileAt(w, x).Some? ==> FileAt(w', x).Some?;
  }

  /** Restarting the spare container. */
  lemma AddingRestart(w0: World, w: World, c: string, spare: string)
    requires Adding(w0, w, c, spare)
    ensures Adding(w0, Stopped(w, spare), c, spare) && Adding(w0, Started(w, spare), c, spare)
  {
    SameRoleRuns(w, spare, Remount);
    AddingRuns(w0, w, Stopped(w, spare), c, spare);
    AddingRuns(w0, w, Started(w, spare), c, spare);
  }

  lemma AddingRuns(w0: World, w: World, w': World, c: string, spare: string)
    requires Adding(w0, w, c, spare) && SameRole(w, w', spare) && w.clock <= w'.clock
    requires w'.volumes == w.volumes && w'.files == w.files && w'.root == w.root
    requires forall x :: x != spare ==> At(w', x) == At(w, x)
    ensures Adding(w0, w', c, spare)
  {
    assert forall v :: Vol(w', v) == Vol(w, v);
    assert forall path :: FileAt(w', path) == FileAt(w, path);
  }
}
