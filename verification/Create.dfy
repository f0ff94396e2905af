/** Bringing up a cluster (provider/apple/create.go). */
module Create {
  import opened Types
  import opened Text
  import opened Names
  import opened Ordering
  import opened Recipes
  import opened Meaning
  import opened Records
  import opened World
  import opened Runtime
  import opened Fidelity
  import opened Frames
  import opened Lifecycle
  import opened EtcdTLS
  import opened Launches
  import opened Day2
  import opened Bringup
  import opened Checks
  import opened LoadBalancer
  import opened Request
  import Hosts
  import Kubeconfig
  import Rotation

  /** The command was run in the container since it booted. */
  predicate Did(w: World, id: string, cmd: GuestCommand) {
    At(w, id).Some? && cmd in At(w, id).value.did
  }

  /** No server of the lineup is launched before the first datastore member reported a
      quorum. */
  ghost predicate QuorumFirst(w: World, plan: seq<NodeInfo>, t: nat) {
    forall n | n in plan && n.role.Server? && At(w, n.id).Some? && At(w, n.id).value.made >= t ::
      plan[0].role.Datastore? ==> Did(w, plan[0].id, QuorumHealth)
  }

  /** What create keeps at every point: nothing that was there changes, every new node is on a
      new volume, what runs of the lineup has what it depends on, servers wait for the quorum,
      and a record that was not there before is of the lineup. */
  ghost predicate Creating(w0: World, w: World, plan: seq<NodeInfo>, c: string) {
    && Adding(w0, w, c, "") && (Closed(w0, plan) ==> Closed(w, plan))
    && QuorumFirst(w, plan, w0.clock)
    && (OnRecord(w0, c, plan) ==> OnRecord(w, c, plan))
  }

  ghost function CreatingFrom(w0: World, plan: seq<NodeInfo>, c: string): World -> bool {
    w => Creating(w0, w, plan, c)
  }

  lemma CreatingStarts(w: World, plan: seq<NodeInfo>, c: string)
    requires Tidy(w)
    ensures CreatingFrom(w, plan, c)(w)
  {
    AddingStarts(w, c, "");
    NoneSince(w);
  }

  /** Nothing was made at or after the present. */
  lemma NoneSince(w: World)
    requires Tidy(w)
    ensures forall id :: At(w, id).Some? ==> At(w, id).value.made < w.clock
  {
    hide Owned;
  }

  /** Worlds whose containers were made when they were, and did at least what they did. */
  lemma QuorumKept(w: World, w': World, plan: seq<NodeInfo>, t: nat)
    requires QuorumFirst(w, plan, t)
    requires forall id :: At(w', id).Some? ==> At(w, id).Some? && At(w', id).value.made == At(w, id).value.made
    requires forall id, cmd :: Did(w, id, cmd) ==> Did(w', id, cmd)
    ensures QuorumFirst(w', plan, t)
  {
  }

  /** Launching a node keeps the wait, if a server waited. */
  lemma QuorumPlaced(w: World, plan: seq<NodeInfo>, k: nat, l: Launch, boots: bool, t: nat)
    requires QuorumFirst(w, plan, t) && UniqueIds(plan) && k < |plan| && l.names == [plan[k].id] && At(w, plan[k].id).None?
    requires plan[k].role.Server? && plan[0].role.Datastore? ==> Did(w, plan[0].id, QuorumHealth)
    ensures QuorumFirst(Placed(w, l, boots), plan, t)
  {
    var w' := Placed(w, l, boots);
    assert forall x :: x != plan[k].id ==> At(w', x) == At(w, x);
    assert plan[0] in plan && plan[k] in plan;
  }

  // ---------------------------------------------------------------------------------------
  // Steps
  // ---------------------------------------------------------------------------------------

  lemma CreatingVolumesFree(w0: World, plan: seq<NodeInfo>, c: string)
    ensures VolumesFree(CreatingFrom(w0, plan, c))
  {
    forall w, v, labels {:trigger VolumeMade(w, v, labels)} | Creating(w0, w, plan, c) && Vol(w, v).None?
      ensures Creating(w0, VolumeMade(w, v, labels), plan, c)
    {
      CreatingMade(w0, w, plan, c, v, labels);
    }
  }

  lemma CreatingMade(w0: World, w: World, plan: seq<NodeInfo>, c: string, v: string, labels: seq<string>)
    requires Creating(w0, w, plan, c) && Vol(w, v).None?
    ensures Creating(w0, VolumeMade(w, v, labels), plan, c)
  {
    hide Adding;
    hide OnRecord;
    hide QuorumFirst;
    QuorumKept(w, VolumeMade(w, v, labels), plan, w0.clock);
    AddingVolumesFree(w0, c, "");
    assert AddingFrom(w0, c, "")(w);
    assert AddingFrom(w0, c, "")(VolumeMade(w, v, labels));
    assert forall x :: Up(VolumeMade(w, v, labels), x) == Up(w, x);
    SameRecord(w, VolumeMade(w, v, labels), c, plan);
  }

  lemma CreatingFilesFree(w0: World, plan: seq<NodeInfo>, c: string)
    ensures FilesFree(CreatingFrom(w0, plan, c))
  {
    forall w, path, file: File {:trigger Written(w, path, file)} | Creating(w0, w, plan, c) && !file.Record?
      ensures Creating(w0, Written(w, path, file), plan, c)
    {
      CreatingWritten(w0, w, plan, c, path, file);
    }
  }

  lemma CreatingWritten(w0: World, w: World, plan: seq<NodeInfo>, c: string, path: string, file: File)
    requires Creating(w0, w, plan, c) && (file.Record? ==> Readdressed(plan, file.state.nodes))
    ensures Creating(w0, Written(w, path, file), plan, c)
  {
    AddingWritten(w0, w, c, "", path, file);
    QuorumKept(w, Written(w, path, file), plan, w0.clock);
    assert forall x :: Up(Written(w, path, file), x) == Up(w, x);
    if OnRecord(w, c, plan) {
      RecordWritten(w, c, plan, path, file);
    }
  }

  lemma CreatingSteady(w0: World, plan: seq<NodeInfo>, c: string, id: string)
    requires At(w0, id).None?
    ensures Steady(CreatingFrom(w0, plan, c), id)
  {
    forall w, cmd {:trigger Ran(w, id, cmd)} | Creating(w0, w, plan, c)
      ensures Creating(w0, Ran(w, id, cmd), plan, c)
    {
      AddingRan(w0, w, c, "", id, cmd);
      QuorumKept(w, Ran(w, id, cmd), plan, w0.clock);
      SameRecord(w, Ran(w, id, cmd), c, plan);
      assert forall x :: Up(Ran(w, id, cmd), x) == Up(w, x);
    }
  }

  // ---------------------------------------------------------------------------------------
  // Progress along the lineup
  // ---------------------------------------------------------------------------------------

  /** Members and servers load TLS keys. */
  predicate Keyed(n: NodeInfo, st: ClusterState) {
    Managed(st) && (n.role.Datastore? || n.role.Server?)
  }

  /** The keys on disk for the datastore clients. */
  function ClientKeys(w: World, c: string): Option<File> {
    FileAt(w, TLSDir(w.root, c, CLIENT))
  }

  /** A k3s node has the outfit, and the first server writes its kubeconfig into the cluster's
      directory and has the manifests. */
  ghost predicate Furnished(l: Launch, n: NodeInfo, c: string, root: string, o: Outfit) {
    n.role.IsK3s() ==>
      && Outfitted(l, n.role, o)
      && (n.role.Server? && n.name == ServerName(c, 1) ==>
            WritesKubeconfig(l, NodeConfigFromInfo(n), ClusterDir(root, c), "k3s.yaml") && MountsManifests(l.volumes, o.manifests))
  }

  /** The node serves as the record says, at its recorded address, with the outfit, on the keys that
      are on disk; the load balancer over the recorded servers. */
  ghost predicate Stands(w: World, n: NodeInfo, st: ClusterState, d: string, o: Outfit) {
    && Serving(w, n) && n.ips == [At(w, n.id).value.addr]
    && InPlace(w, n, st, d) && Furnished(At(w, n.id).value.launch, n, st.clusterName, w.root, o)
    && (Keyed(n, st) ==> At(w, n.id).value.ca.Some? && ClientKeys(w, st.clusterName) == Some(Keys(At(w, n.id).value.ca.value)))
    && (n.role.LB? ==> At(w, n.id).value.config == Some(APILBConfig(st.clusterName, ServerNames(st.nodes), d)))
  }

  /** The first nodes of the lineup stand. */
  ghost predicate Progress(w: World, plan: seq<NodeInfo>, infos: seq<NodeInfo>, st: ClusterState, d: string, o: Outfit) {
    |infos| <= |plan| && forall k: nat | k < |infos| :: Bare(infos[k]) == Bare(plan[k]) && Stands(w, infos[k], st, d, o)
  }

  /** Volumes that were there are there; these containers and the clients' keys are as they
      were. */
  ghost predicate Onward(w: World, w': World, infos: seq<NodeInfo>, c: string) {
    && w'.root == w.root && ClientKeys(w', c) == ClientKeys(w, c)
    && (forall v :: Vol(w, v).Some? ==> Vol(w', v) == Vol(w, v))
    && (forall n | n in infos :: At(w', n.id) == At(w, n.id))
  }

  /** What is run in a container, or changes elsewhere, leaves the node as it stands. */
  lemma StandsKept(w: World, w': World, n: NodeInfo, st: ClusterState, d: string, o: Outfit)
    requires Stands(w, n, st, d, o) && w'.root == w.root && ClientKeys(w', st.clusterName) == ClientKeys(w, st.clusterName)
    requires forall v :: Vol(w, v).Some? ==> Vol(w', v) == Vol(w, v)
    requires At(w', n.id).Some? && At(w', n.id).value == At(w, n.id).value.(did := At(w', n.id).value.did)
    requires At(w, n.id).value.did <= At(w', n.id).value.did
    ensures Stands(w', n, st, d, o)
  {
    hide APILBConfig;
    hide Suits;
    hide MemberCommand;
    hide TLSDir;
    hide TLSSource;
    hide MountedAt;
    hide ServerNames;
    hide EtcdVolumeName;
    hide NodeVolumeName;
  }

  lemma ProgressOnward(w: World, w': World, plan: seq<NodeInfo>, infos: seq<NodeInfo>, st: ClusterState, d: string, o: Outfit)
    requires Progress(w, plan, infos, st, d, o) && Onward(w, w', infos, st.clusterName)
    ensures Progress(w', plan, infos, st, d, o)
  {
    hide Stands;
    hide TLSDir;
    forall k: nat | k < |infos|
      ensures Stands(w', infos[k], st, d, o)
    {
      assert infos[k] in infos && Stands(w, infos[k], st, d, o);
      StandsThere(w, infos[k], st, d, o);
      StandsKept(w, w', infos[k], st, d, o);
    }
  }

  lemma StandsThere(w: World, n: NodeInfo, st: ClusterState, d: string, o: Outfit)
    requires Stands(w, n, st, d, o)
    ensures At(w, n.id).Some?
  {
    hide InPlace;
    hide APILBConfig;
  }

  /** What a launch must be for the record's node n. */
  ghost predicate Fits(l: Launch, n: NodeInfo, st: ClusterState, d: string, root: string, o: Outfit) {
    && l.names == [n.id]
    && NamedVolume(l.volumes) == VolumeOf(st.clusterName, n.role, n.name)
    && Suits(l, n, st, d, root) && Furnished(l, n, st.clusterName, root, o)
    && (Managed(st) && (n.role.Datastore? || n.role.Server?) ==> TLSSource(l.volumes) == Some(TLSDir(root, st.clusterName, BundleOf(n))))
    && (n.role.Datastore? ==> l.command == MemberCommand(st, n, d))
    && (n.role.LB? ==> MountedAt(l.volumes, LB_CONFIG_MOUNT) == Some(ConfigDir(root, st.clusterName)))
  }

  /** The volume the launch mounts and the keys it loads were made in this operation, and the
      load balancer's configuration is on disk. */
  ghost predicate Supplied(w: World, n: NodeInfo, st: ClusterState, d: string, t: nat) {
    && (VolumeOf(st.clusterName, n.role, n.name).Some? ==> FreshVolume(w, VolumeOf(st.clusterName, n.role, n.name).value, t))
    && (n.role.LB? ==> FileAt(w, ConfigDir(w.root, st.clusterName)) == Some(Page(APILBConfig(st.clusterName, ServerNames(st.nodes), d))))
    && (Keyed(n, st) ==>
          && FileAt(w, TLSDir(w.root, st.clusterName, BundleOf(n))) == ClientKeys(w, st.clusterName)
          && FreshBundle(w, st.clusterName, t))
  }

  /** The clients' keys were made at or after time t. */
  ghost predicate FreshBundle(w: World, c: string, t: nat) {
    ClientKeys(w, c).Some? && ClientKeys(w, c).value.Keys? && ClientKeys(w, c).value.generation >= t
  }

  lemma PlacedStands(w: World, w': World, l: Launch, n: NodeInfo, st: ClusterState, d: string, t: nat, o: Outfit)
    requires Fits(l, n, st, d, w.root, o) && Supplied(w, n, st, d, t) && OnlyRan(Placed(w, l, true), w', n.id)
    requires n.role.IsK3s() ==> Armed(w', n.id)
    ensures Stands(w', n.(ips := [w.lease(w.clock)]), st, d, o)
  {
    hide APILBConfig;
    hide Suits;
    hide EtcdMesh;
    hide EtcdCommand;
    assert forall v :: Vol(w', v) == Vol(w, v);
    assert At(w', n.id).Some?;
    SuitsSame(l, n, n.(ips := [w.lease(w.clock)]), st, st, d, w.root);
  }

  lemma ProgressMore(w: World, w': World, plan: seq<NodeInfo>, infos: seq<NodeInfo>, l: Launch, st: ClusterState, d: string, t: nat, o: Outfit)
    requires Progress(w, plan, infos, st, d, o) && |infos| < |plan| && At(w, plan[|infos|].id).None?
    requires Fits(l, plan[|infos|], st, d, w.root, o) && Supplied(w, plan[|infos|], st, d, t)
    requires OnlyRan(Placed(w, l, true), w', plan[|infos|].id)
    requires plan[|infos|].role.IsK3s() ==> Armed(w', plan[|infos|].id)
    ensures Progress(w', plan, infos + [plan[|infos|].(ips := [w.lease(w.clock)])], st, d, o)
  {
    hide InPlace;
    hide Fits;
    hide Supplied;
    hide Furnished;
    var n := plan[|infos|];
    PlacedStands(w, w', l, n, st, d, t, o);
    assert forall x :: x != n.id ==> At(w', x) == At(w, x);
    assert forall v :: Vol(w', v) == Vol(w, v);
    forall m | m in infos
      ensures At(w', m.id) == At(w, m.id)
    {
      var k: nat :| k < |infos| && infos[k] == m;
      assert Stands(w, infos[k], st, d, o);
    }
    ProgressOnward(w, w', plan, infos, st, d, o);
  }

  /** Launching the next node of the lineup finds what it depends on running. */
  lemma CreatingPlaced(w0: World, w: World, plan: seq<NodeInfo>, infos: seq<NodeInfo>, c: string, st: ClusterState, d: string, l: Launch, boots: bool, o: Outfit)
    requires Creating(w0, w, plan, c) && Progress(w, plan, infos, st, d, o) && |infos| < |plan| && UniqueIds(plan)
    requires forall k: nat | k < |plan| && StopRank(plan[k].role) > StopRank(plan[|infos|].role) :: k < |infos|
    requires l.names == [plan[|infos|].id] && At(w, plan[|infos|].id).None? && At(w0, "").Some? ==> plan[|infos|].id != ""
    requires Keeps(Owned(plan[|infos|].id), STATEFUL) ==> NamedVolume(l.volumes).Some? && FreshVolume(w, NamedVolume(l.volumes).value, w0.clock)
    requires plan[|infos|].role.Server? && plan[0].role.Datastore? ==> Did(w, plan[0].id, QuorumHealth)
    ensures l.names == [plan[|infos|].id] && At(w, plan[|infos|].id).None? ==> Creating(w0, Placed(w, l, boots), plan, c)
  {
    if l.names == [plan[|infos|].id] && At(w, plan[|infos|].id).None? {
      AddingPlaced(w0, w, c, "", l, boots);
      QuorumPlaced(w, plan, |infos|, l, boots, w0.clock);
      SameRecord(w, Placed(w, l, boots), c, plan);
      if Closed(w, plan) {
        PlacedClosed(w, plan, infos, st, d, l, boots, o);
      }
    }
  }

  lemma PlacedClosed(w: World, plan: seq<NodeInfo>, infos: seq<NodeInfo>, st: ClusterState, d: string, l: Launch, boots: bool, o: Outfit)
    requires Closed(w, plan) && Progress(w, plan, infos, st, d, o) && |infos| < |plan| && UniqueIds(plan)
    requires forall k: nat | k < |plan| && StopRank(plan[k].role) > StopRank(plan[|infos|].role) :: k < |infos|
    requires l.names == [plan[|infos|].id] && At(w, plan[|infos|].id).None?
    ensures Closed(Placed(w, l, boots), plan)
  {
    hide InPlace;
    hide APILBConfig;
    var n, w' := plan[|infos|], Placed(w, l, boots);
    assert forall x :: Up(w', x) <==> Up(w, x) || (x == n.id && boots);
    forall b | b in plan && StopRank(n.role) < StopRank(b.role)
      ensures Up(w, b.id)
    {
      var k: nat :| k < |plan| && plan[k] == b;
      assert Bare(infos[k]) == Bare(plan[k]) && Stands(w, infos[k], st, d, o);
      SameNode(plan[k], infos[k]);
    }
  }

  // ---------------------------------------------------------------------------------------
  // Launching the next node
  // ---------------------------------------------------------------------------------------

  /** What a node depends on comes before it. */
  ghost predicate Sequenced(plan: seq<NodeInfo>) {
    forall i: nat, k: nat | i < |plan| && k < |plan| && StopRank(plan[k].role) > StopRank(plan[i].role) :: k < i
  }

  /** The record is of this cluster's own nodes, in bring-up order. */
  ghost predicate Orderly(st: ClusterState, d: string) {
    && CleanText(st.clusterName) && AllNumbered(st.nodes, st.clusterName, d)
    && UniqueIds(st.nodes) && Sequenced(st.nodes)
  }

  /** The bring-up of this record is under way. */
  ghost predicate Planned(p: Provisioner, st: ClusterState, w0: World)
    reads p`watch, p`scope
  {
    p.watch == CreatingFrom(w0, st.nodes, st.clusterName) && p.scope == st.clusterName && Orderly(st, p.domain)
  }

  /** The volumes of the first n nodes were made in this operation. */
  ghost predicate Stocked(w: World, st: ClusterState, t: nat, n: nat) {
    && n <= |st.nodes|
    && forall k: nat | k < n && VolumeOf(st.clusterName, st.nodes[k].role, st.nodes[k].name).Some? ::
         FreshVolume(w, VolumeOf(st.clusterName, st.nodes[k].role, st.nodes[k].name).value, t)
  }

  /** The first datastore member reported a quorum, if there is one. */
  ghost predicate Gated(w: World, st: ClusterState) {
    st.nodes != [] && st.nodes[0].role.Datastore? ==> Did(w, st.nodes[0].id, QuorumHealth)
  }

  /** The first nodes stand, none of them was there before, and the volumes of the first n and
      the keys are ready; with all volumes, the quorum too. */
  ghost predicate Reached(w0: World, w: World, st: ClusterState, infos: seq<NodeInfo>, d: string, n: nat, o: Outfit) {
    && (n == |st.nodes| ==> Gated(w, st))
    && Progress(w, st.nodes, infos, st, d, o) && Stocked(w, st, w0.clock, n) && HostPath(w.root)
    && (Managed(st) ==> FreshBundle(w, st.clusterName, w0.clock)) && OneBundle(w, st)
    && forall m | m in infos :: At(w0, m.id).None?
  }

  /** Every member's bundle is of the clients' CA. */
  ghost predicate OneBundle(w: World, st: ClusterState) {
    Managed(st) ==> forall n | n in st.nodes && n.role.Datastore? ::
      FileAt(w, TLSDir(w.root, st.clusterName, n.name)) == ClientKeys(w, st.clusterName)
  }

  ghost predicate SameStore(w: World, w': World) {
    w'.volumes == w.volumes && w'.files == w.files && w'.root == w.root
  }

  lemma SameStoreSelf(w: World)
    ensures SameStore(w, w)
  {
  }

  lemma SameStoreMore(w0: World, w: World, w': World)
    requires SameStore(w0, w) && SameStore(w, w')
    ensures SameStore(w0, w')
  {
  }

  lemma MayLaunch(p: Provisioner, st: ClusterState, infos: seq<NodeInfo>, w0: World, l: Launch, o: Outfit)
    requires p.Valid() && Planned(p, st, w0) && Progress(p.world, st.nodes, infos, st, p.domain, o) && |infos| < |st.nodes|
    requires Fits(l, st.nodes[|infos|], st, p.domain, p.world.root, o) && Supplied(p.world, st.nodes[|infos|], st, p.domain, w0.clock)
    requires st.nodes[|infos|].role.Server? ==> Gated(p.world, st)
    ensures p.watch(p.world) && Implies(p.watch, p.watch) && MayPlace(p.watch, p.world, l)
    ensures Owned(st.nodes[|infos|].id) == Node(st.clusterName, st.nodes[|infos|].role)
    ensures At(p.world, st.nodes[|infos|].id).None? ==> Steady(p.watch, st.nodes[|infos|].id) && At(w0, st.nodes[|infos|].id).None?
  {
    hide InPlace;
    hide APILBConfig;
    hide Suits;
    hide Supplied;
    hide Fits;
    hide Progress;
    hide Adding;
    hide Owned;
    hide Numbered;
    p.Now();
    var n := st.nodes[|infos|];
    assert n in st.nodes && Numbered(n, st.clusterName, p.domain);
    NumberedOwner(n, st.clusterName, p.domain);
    PlacedCreates(w0, p.world, st, infos, p.domain, l, o);
    if At(p.world, n.id).None? {
      OwnedNotEmpty(n.id);
      StillAbsent(w0, p.world, st.nodes, st.clusterName, n.id);
      CreatingSteady(w0, st.nodes, st.clusterName, n.id);
    }
  }

  lemma OwnedNotEmpty(id: string)
    requires Owned(id).Node?
    ensures id != ""
  {
  }

  lemma PlacedCreates(w0: World, w: World, st: ClusterState, infos: seq<NodeInfo>, d: string, l: Launch, o: Outfit)
    requires Creating(w0, w, st.nodes, st.clusterName) && Progress(w, st.nodes, infos, st, d, o) && |infos| < |st.nodes|
    requires UniqueIds(st.nodes) && Sequenced(st.nodes)
    requires Fits(l, st.nodes[|infos|], st, d, w.root, o) && Supplied(w, st.nodes[|infos|], st, d, w0.clock)
    requires Owned(st.nodes[|infos|].id) == Node(st.clusterName, st.nodes[|infos|].role)
    requires st.nodes[|infos|].role.Server? ==> Gated(w, st)
    ensures l.names == [st.nodes[|infos|].id]
    ensures At(w, l.names[0]).None? ==>
      Creating(w0, Placed(w, l, false), st.nodes, st.clusterName) && Creating(w0, Placed(w, l, true), st.nodes, st.clusterName)
  {
    hide Creating;
    hide Progress;
    hide Owned;
    hide Suits;
    hide APILBConfig;
    OwnedNotEmpty(st.nodes[|infos|].id);
    CreatingPlaced(w0, w, st.nodes, infos, st.clusterName, st, d, l, false, o);
    CreatingPlaced(w0, w, st.nodes, infos, st.clusterName, st, d, l, true, o);
  }

  lemma StillAbsent(w0: World, w: World, plan: seq<NodeInfo>, c: string, id: string)
    requires Creating(w0, w, plan, c) && At(w, id).None? && id != ""
    ensures At(w0, id).None?
  {
  }

  /** The configuration names the record's image, token, network and endpoint, and the client
      bundle of a managed cluster. */
  ghost predicate Works(run: ClusterConfig, st: ClusterState, root: string, o: Outfit) {
    && run.name == st.clusterName && run.image == ResolvedImage(st.image) && PlainImage(run.image) && run.token == st.token
    && run.network == st.network && run.datastoreEndpoint == st.datastoreEndpoint
    && run.datastoreTLSDir == (if Managed(st) then TLSDir(root, st.clusterName, CLIENT) else "")
    && (forall m | m in run.manifests :: HostPath(m)) && OutfitOf(run) == o
  }

  /** The server whose kubeconfig is delivered. */
  predicate Boots(node: NodeConfig, c: string) {
    node.role.Server? && node.name == ServerName(c, 1)
  }

  lemma NodeFits(run: ClusterConfig, node: NodeConfig, url: string, d: string, kubeDir: string, st: ClusterState, root: string, o: Outfit)
    requires Works(run, st, root, o) && CleanText(st.clusterName) && HostPath(root)
    requires node.role.IsK3s() && Numbered(InfoOf(node, d, ""), st.clusterName, d)
    requires node.role.Agent? ==> url == st.serverURL
    requires kubeDir == "" || HostPath(kubeDir)
    requires Boots(node, st.clusterName) ==> kubeDir == ClusterDir(root, st.clusterName)
    ensures Launchable(run, node, st.clusterName, d)
    ensures Fits(NodeLaunch(run, node, url, d, kubeDir), InfoOf(node, d, ""), st, d, root, o)
  {
    hide NodeLaunch;
    hide Serves;
    hide Furnished;
    hide KeyedBy;
    hide RunsMember;
    hide RunsProxy;
    hide NodeRunArgs;
    hide ReadRun;
    hide Owned;
    hide Numbered;
    hide NodeFQDN;
    hide TLSDir;
    hide TLSSource;
    hide HostPath;
    hide CleanText;
    hide ResolvedImage;
    hide LabelValue;
    var n := InfoOf(node, d, "");
    assert NodeConfigFromInfo(n) == node;
    NodeReads(run, n, url, d, kubeDir);
    NodeFurnished(run, node, url, d, kubeDir, st, root, o);
    ServesAlike(NodeLaunch(run, node, url, d, kubeDir), st.clusterName, node, d, CommonOf(run, url), CommonIn(st));
    if Managed(st) && node.role.Server? {
      ClientPath(root, st.clusterName);
      ServerLaunchTLS(run, node, url, d, kubeDir);
      ServerKeyed(run, node, url, d, kubeDir);
    }
  }

  lemma NodeFurnished(run: ClusterConfig, node: NodeConfig, url: string, d: string, kubeDir: string, st: ClusterState, root: string, o: Outfit)
    requires Works(run, st, root, o) && CleanText(st.clusterName) && HostPath(root) && node.role.IsK3s()
    requires kubeDir == "" || HostPath(kubeDir)
    requires Boots(node, st.clusterName) ==> kubeDir == ClusterDir(root, st.clusterName)
    ensures Furnished(NodeLaunch(run, node, url, d, kubeDir), InfoOf(node, d, ""), st.clusterName, root, o)
  {
    hide NodeLaunch;
    hide Outfitted;
    hide WritesKubeconfig;
    hide MountsManifests;
    hide TLSDir;
    hide HostPath;
    hide CleanText;
    hide ResolvedImage;
    hide ServerName;
    hide NodeFQDN;
    ClientPath(root, st.clusterName);
    ClusterPath(root, st.clusterName);
    assert NodeConfigFromInfo(InfoOf(node, d, "")) == node;
    NodeOutfitted(run, node, url, d, kubeDir);
    if Boots(node, st.clusterName) {
      ServerWrites(run, node, url, d, kubeDir);
      ManifestsFound(run, node, url, d, kubeDir);
    }
  }

  lemma ClusterPath(root: string, c: string)
    requires HostPath(root) && CleanText(c)
    ensures HostPath(ClusterDir(root, c)) && ClusterDir(root, c) != ""
  {
    DirIsHostPath(root, c, "");
  }

  lemma StockedSupplies(w: World, st: ClusterState, t: nat, n: nat, k: nat, d: string)
    requires Stocked(w, st, t, n) && k < n && st.nodes[k].role.IsK3s() && (Managed(st) ==> FreshBundle(w, st.clusterName, t))
    ensures Supplied(w, st.nodes[k], st, d, t)
  {
  }

  lemma LaunchedMore(w0: World, w: World, w': World, st: ClusterState, infos: seq<NodeInfo>, l: Launch, d: string, n: nat, o: Outfit)
    requires Reached(w0, w, st, infos, d, n, o) && |infos| < |st.nodes| && UniqueIds(st.nodes)
    requires At(w, st.nodes[|infos|].id).None? && At(w0, st.nodes[|infos|].id).None?
    requires Fits(l, st.nodes[|infos|], st, d, w.root, o) && Supplied(w, st.nodes[|infos|], st, d, w0.clock)
    requires OnlyRan(Placed(w, l, true), w', st.nodes[|infos|].id)
    requires st.nodes[|infos|].role.IsK3s() ==> Armed(w', st.nodes[|infos|].id)
    ensures Reached(w0, w', st, infos + [st.nodes[|infos|].(ips := [w.lease(w.clock)])], d, n, o)
    ensures SameStore(w, w')
  {
    hide Stands;
    hide Fits;
    hide Supplied;
    LaunchNames(l, st.nodes[|infos|], st, d, w.root, o);
    ProgressMore(w, w', st.nodes, infos, l, st, d, w0.clock, o);
    LaunchKeeps(w, w', l, st.nodes[|infos|].id, st);
    if n == |st.nodes| {
      GateKept(w, w', st, |infos|);
    }
  }

  lemma LaunchKeeps(w: World, w': World, l: Launch, id: string, st: ClusterState)
    requires l.names == [id] && OnlyRan(Placed(w, l, true), w', id)
    ensures SameStore(w, w') && (forall v :: Vol(w', v) == Vol(w, v)) && ClientKeys(w', st.clusterName) == ClientKeys(w, st.clusterName)
    ensures forall x :: x != id ==> At(w', x) == At(w, x)
  {
  }

  lemma GateKept(w: World, w': World, st: ClusterState, k: nat)
    requires Gated(w, st) && k < |st.nodes| && UniqueIds(st.nodes) && At(w, st.nodes[k].id).None?
    requires forall x :: x != st.nodes[k].id ==> At(w', x) == At(w, x)
    ensures Gated(w', st)
  {
    assert st.nodes[0] in st.nodes && st.nodes[k] in st.nodes;
  }

  lemma LaunchNames(l: Launch, n: NodeInfo, st: ClusterState, d: string, root: string, o: Outfit)
    requires Fits(l, n, st, d, root, o)
    ensures l.names == [n.id]
  {
    hide Suits;
  }

  /** What launching this node next needs. */
  lemma NextNode(p: Provisioner, run: ClusterConfig, node: NodeConfig, url: string, kubeDir: string, infos: seq<NodeInfo>, st: ClusterState, w0: World, o: Outfit)
    requires p.Valid() && Planned(p, st, w0) && Reached(w0, p.world, st, infos, p.domain, |st.nodes|, o) && |infos| < |st.nodes|
    requires Works(run, st, p.world.root, o) && node.role.IsK3s() && st.nodes[|infos|] == InfoOf(node, p.domain, "")
    requires node.role.Agent? ==> url == st.serverURL
    requires kubeDir == "" || HostPath(kubeDir)
    requires Boots(node, st.clusterName) ==> kubeDir == ClusterDir(p.world.root, st.clusterName)
    ensures
      var c, id, l := st.clusterName, NodeFQDN(node.name, p.domain), NodeLaunch(run, node, url, p.domain, kubeDir);
      && p.scope == c && Launchable(run, node, c, p.domain) && st.nodes[|infos|].id == id
      && p.watch(p.world) && Implies(p.watch, p.watch) && MayPlace(p.watch, p.world, l)
      && Owned(id).Of(p.scope) && Owned(id).Node? && Owned(id).role.IsK3s()
      && (At(p.world, id).None? ==> Steady(p.watch, id) && At(w0, id).None?)
      && Fits(l, st.nodes[|infos|], st, p.domain, p.world.root, o) && Supplied(p.world, st.nodes[|infos|], st, p.domain, w0.clock)
      && UniqueIds(st.nodes)
  {
    hide Progress;
    hide Fits;
    hide Supplied;
    hide Steady;
    hide MayPlace;
    hide Launchable;
    hide Works;
    hide NodeLaunch;
    hide Creating;
    PlannedNode(p, st, w0, |infos|);
    NodeFits(run, node, url, p.domain, kubeDir, st, p.world.root, o);
    StockedSupplies(p.world, st, w0.clock, |st.nodes|, |infos|, p.domain);
    MayLaunch(p, st, infos, w0, NodeLaunch(run, node, url, p.domain, kubeDir), o);
  }

  /** launchNode and enableIPForward for the next k3s node of the lineup. */
  method LaunchNext(p: Provisioner, run: ClusterConfig, node: NodeConfig, url: string, kubeDir: string, infos: seq<NodeInfo>,
                    ghost st: ClusterState, ghost w0: World, ghost o: Outfit)
    returns (r: Result<NodeInfo>)
    requires p.Valid() && Planned(p, st, w0) && Reached(w0, p.world, st, infos, p.domain, |st.nodes|, o) && |infos| < |st.nodes|
    requires Works(run, st, p.world.root, o) && node.role.IsK3s() && st.nodes[|infos|] == InfoOf(node, p.domain, "") && run.name == st.clusterName
    requires node.role.Agent? ==> url == st.serverURL
    requires kubeDir == "" || HostPath(kubeDir)
    requires Boots(node, st.clusterName) ==> kubeDir == ClusterDir(p.world.root, st.clusterName)
    modifies p`world, p`trace
    ensures p.Valid()
    ensures r.Ok? ==>
      && Reached(w0, p.world, st, infos + [r.value], p.domain, |st.nodes|, o) && SameStore(old(p.world), p.world)
      && exists addr :: r.value == InfoOf(node, p.domain, addr)
    ensures r.Err? ==> r.error == CliFailed
  {
    hide *;
    var c := run.name;
    var id := NodeFQDN(node.name, p.domain);
    ghost var l, w := NodeLaunch(run, node, url, p.domain, kubeDir), p.world;
    NextNode(p, run, node, url, kubeDir, infos, st, w0, o);
    r := LaunchNode(p, c, run, node, url, kubeDir, p.watch);
    if r.Err? {
      return;
    }
    ghost var w1 := p.world;
    var armed := p.EnableIPForward(id, p.watch);
    if armed.Fail? {
      return Err(armed.error);
    }
    LaunchedMore(w0, w, p.world, st, infos, l, p.domain, |st.nodes|, o);
    LeasedAddr(w, l, node, p.domain);
  }

  lemma LeasedAddr(w: World, l: Launch, node: NodeConfig, d: string)
    requires l.names == [NodeFQDN(node.name, d)]
    ensures At(Placed(w, l, true), l.names[0]).Some?
    ensures InfoOf(node, d, At(Placed(w, l, true), l.names[0]).value.addr) == InfoOf(node, d, "").(ips := [w.lease(w.clock)])
  {
  }

  lemma PlannedNode(p: Provisioner, st: ClusterState, w0: World, k: nat)
    requires Planned(p, st, w0) && k < |st.nodes|
    ensures p.scope == st.clusterName && CleanText(st.clusterName) && Numbered(st.nodes[k], st.clusterName, p.domain)
  {
    assert st.nodes[k] in st.nodes;
  }

  // ---------------------------------------------------------------------------------------
  // Datastore members and the load balancer
  // ---------------------------------------------------------------------------------------

  lemma RanSelf(w: World, id: string)
    ensures OnlyRan(w, w, id)
  {
    OnlyRanSelf(w, id);
  }

  /** A launch of the next node that is of its cluster. */
  ghost predicate NextLaunch(w0: World, w: World, st: ClusterState, infos: seq<NodeInfo>, args: seq<string>, l: Launch, node: NodeConfig, d: string, o: Outfit) {
    && |infos| < |st.nodes| && st.nodes[|infos|] == InfoOf(node, d, "") && !node.role.IsK3s()
    && ReadRun(args) == Some(l) && l.names == [st.nodes[|infos|].id]
    && LabelValue(l.labels, CLUSTER_KEY) == Some(st.clusterName)
    && Fits(l, st.nodes[|infos|], st, d, w.root, o) && Supplied(w, st.nodes[|infos|], st, d, w0.clock)
  }

  lemma NextFacts(p: Provisioner, st: ClusterState, infos: seq<NodeInfo>, w0: World, args: seq<string>, l: Launch, node: NodeConfig, n: nat, o: Outfit)
    requires p.Valid() && Planned(p, st, w0) && Reached(w0, p.world, st, infos, p.domain, n, o)
    requires NextLaunch(w0, p.world, st, infos, args, l, node, p.domain, o)
    ensures ReadRun(args) == Some(l) && l.names == [NodeFQDN(node.name, p.domain)] && UniqueIds(st.nodes)
    ensures Owned(l.names[0]).Of(p.scope) && LabelValue(l.labels, CLUSTER_KEY) == NodeCluster(Owned(l.names[0]))
    ensures At(p.world, l.names[0]).None? ==>
      p.watch(Placed(p.world, l, false)) && p.watch(Placed(p.world, l, true)) && At(w0, l.names[0]).None?
  {
    hide Fits;
    hide Supplied;
    hide Progress;
    hide Creating;
    hide Steady;
    MayLaunch(p, st, infos, w0, l, o);
  }

  lemma NextRuns(w0: World, w: World, st: ClusterState, infos: seq<NodeInfo>, args: seq<string>, l: Launch, node: NodeConfig, d: string, n: nat, o: Outfit)
    requires Reached(w0, w, st, infos, d, n, o) && NextLaunch(w0, w, st, infos, args, l, node, d, o) && UniqueIds(st.nodes)
    requires At(w, l.names[0]).None? && At(w0, l.names[0]).None?
    ensures
      var w' := Placed(w, l, true);
      && At(w', NodeFQDN(node.name, d)).Some? && SameStore(w, w')
      && Reached(w0, w', st, infos + [InfoOf(node, d, At(w', NodeFQDN(node.name, d)).value.addr)], d, n, o)
  {
    hide Fits;
    hide Supplied;
    hide Progress;
    var w' := Placed(w, l, true);
    RanSelf(w', l.names[0]);
    LaunchedMore(w0, w, w', st, infos, l, d, n, o);
    LeasedAddr(w, l, node, d);
  }

  /** A run of the next node of the lineup, and its address. */
  method RunNext(p: Provisioner, args: seq<string>, node: NodeConfig, ghost infos: seq<NodeInfo>, ghost l: Launch, ghost st: ClusterState,
                 ghost w0: World, ghost n: nat, ghost o: Outfit)
    returns (r: Result<NodeInfo>)
    requires p.Valid() && Planned(p, st, w0) && Reached(w0, p.world, st, infos, p.domain, n, o)
    requires NextLaunch(w0, p.world, st, infos, args, l, node, p.domain, o)
    modifies p`world, p`trace
    ensures p.Valid()
    ensures r.Ok? ==> Reached(w0, p.world, st, infos + [r.value], p.domain, n, o) && SameStore(old(p.world), p.world)
    ensures r.Ok? ==> exists addr :: r.value == InfoOf(node, p.domain, addr)
    ensures r.Err? ==> r.error == CliFailed
  {
    hide *;
    ghost var w := p.world;
    NextFacts(p, st, infos, w0, args, l, node, n, o);
    var launched := p.Run(args, l);
    if launched.Fail? {
      return Err(launched.error);
    }
    NextRuns(w0, w, st, infos, args, l, node, p.domain, n, o);
    var addr := p.InspectIPv4(NodeFQDN(node.name, p.domain));
    if addr.Err? {
      return Err(addr.error);
    }
    r := Ok(InfoOf(node, p.domain, addr.value));
  }

  // ---------------------------------------------------------------------------------------
  // The managed datastore
  // ---------------------------------------------------------------------------------------

  /** These are the record's nodes from the i-th on. */
  ghost predicate Next(st: ClusterState, i: nat, nodes: seq<NodeConfig>, d: string) {
    i + |nodes| <= |st.nodes| && forall k: nat | k < |nodes| :: st.nodes[i + k] == InfoOf(nodes[k], d, "")
  }

  ghost predicate MembersNext(st: ClusterState, members: seq<NodeConfig>, d: string) {
    Next(st, 0, members, d) && forall m | m in members :: m.role.Datastore?
  }

  lemma MemberVolume(st: ClusterState, members: seq<NodeConfig>, d: string, k: nat)
    requires Orderly(st, d) && MembersNext(st, members, d) && k < |members|
    ensures OwnedVolume(EtcdVolumeName(members[k].name)) == Node(st.clusterName, Datastore)
    ensures k < |st.nodes| && VolumeOf(st.clusterName, st.nodes[k].role, st.nodes[k].name) == Some(EtcdVolumeName(members[k].name))
  {
    var n := st.nodes[0 + k];
    assert n in st.nodes && members[k] in members;
    NumberedOwner(n, st.clusterName, d);
  }

  lemma StockedMore(w: World, w': World, st: ClusterState, v: string, t: nat, k: nat)
    requires Stocked(w, st, t, k) && k < |st.nodes| && t <= w.clock
    requires VolumeOf(st.clusterName, st.nodes[k].role, st.nodes[k].name) == Some(v)
    requires Vol(w, v).None? && w' == VolumeMade(w, v, VolumeLabels(st.clusterName))
    ensures Stocked(w', st, t, k + 1)
  {
    assert forall x :: Vol(w, x).Some? ==> Vol(w', x) == Vol(w, x);
  }

  /** The data volume of every member, behind the stale-state guard. */
  method PrepareMembers(p: Provisioner, c: string, members: seq<NodeConfig>, ghost st: ClusterState) returns (r: Outcome)
    requires p.Valid() && p.scope == c == st.clusterName && VolumesFree(p.watch) && Orderly(st, p.domain) && MembersNext(st, members, p.domain)
    modifies p`world, p`trace
    ensures p.Valid() && OnlyVolumes(old(p.world), p.world)
    ensures r.Pass? ==> Stocked(p.world, st, old(p.world).clock, |members|)
    ensures r.Fail? ==> !r.error.BadManifest?
  {
    ghost var w0 := p.world;
    assert OnlyVolumes(w0, w0) && Stocked(w0, st, w0.clock, 0);
    hide *;
    for i := 0 to |members|
      invariant p.Valid() && OnlyVolumes(w0, p.world) && Stocked(p.world, st, w0.clock, i)
    {
      MemberVolume(st, members, p.domain, i);
      ghost var w := p.world;
      r := PrepareVolume(p, c, EtcdVolumeName(members[i].name));
      OnlyVolumesMore(w0, w, p.world);
      if r.Fail? {
        return;
      }
      LaterClock(w0, w);
      StockedMore(w, p.world, st, EtcdVolumeName(members[i].name), w0.clock, i);
    }
    r := Pass;
  }

  /** Every member's directory and the clients' hold the same keys. */
  ghost predicate Issued(w: World, c: string, members: seq<NodeConfig>, t: nat) {
    && FreshBundle(w, c, t)
    && forall m | m in members :: FileAt(w, TLSDir(w.root, c, m.name)) == ClientKeys(w, c)
  }

  lemma IssuedStays(w: World, w': World, c: string, members: seq<NodeConfig>, t: nat)
    requires Issued(w, c, members, t) && w'.files == w.files && w'.root == w.root
    ensures Issued(w', c, members, t)
  {
  }

  /** The record keeps what the datastore is launched with. */
  predicate SameDatastore(cfg: ClusterConfig, st: ClusterState) {
    cfg.name == st.clusterName && cfg.network == st.network && cfg.datastoreImage == st.datastoreImage
  }

  lemma SameQuorate(cfg: ClusterConfig, st: ClusterState, mesh: string, d: string)
    requires SameDatastore(cfg, st) && mesh == EtcdMesh(st.clusterName, d, |WithRole(st.nodes, Datastore)|)
    ensures QuorateOf(cfg, mesh) == QuorateIn(st, d)
  {
    hide EtcdMesh;
  }

  lemma MemberNext(w0: World, w: World, cfg: ClusterConfig, st: ClusterState, members: seq<NodeConfig>, infos: seq<NodeInfo>, mesh: string, d: string, o: Outfit)
    requires Orderly(st, d) && MembersNext(st, members, d) && |infos| < |members| && UsableImage(cfg.datastoreImage)
    requires SameDatastore(cfg, st)
    requires Reached(w0, w, st, infos, d, |members|, o) && Issued(w, st.clusterName, members, w0.clock)
    requires mesh == EtcdMesh(st.clusterName, d, |WithRole(st.nodes, Datastore)|)
    ensures
      var m := members[|infos|];
      var tlsDir := TLSDir(w.root, st.clusterName, m.name);
      NextLaunch(w0, w, st, infos, EtcdRunArgs(cfg, m, d, mesh, tlsDir), EtcdLaunch(cfg, m, d, mesh, tlsDir), m, d, o)
  {
    hide EtcdRunArgs;
    hide EtcdMesh;
    hide EtcdCommand;
    hide ReadRun;
    hide TLSDir;
    hide TLSSource;
    hide NamedVolume;
    hide LabelValue;
    hide Owned;
    hide Numbered;
    hide Progress;
    hide EtcdVolumeName;
    hide NodeFQDN;
    hide RunsMember;
    hide Serves;
    hide KeyedBy;
    hide RunsProxy;
    hide QuorateOf;
    hide QuorateIn;
    hide EtcdImage;
    hide Gated;
    hide OneBundle;
    SameQuorate(cfg, st, mesh, d);
    var m, n := members[|infos|], st.nodes[0 + |infos|];
    assert n in st.nodes && m in members && Numbered(n, st.clusterName, d);
    assert NodeConfigFromInfo(n) == m;
    MemberDir(w.root, st.clusterName, n, d);
    EtcdReads(cfg, n, d, mesh, TLSDir(w.root, st.clusterName, m.name));
  }

  /** All members are launched before any is waited for. */
  method LaunchMembers(p: Provisioner, cfg: ClusterConfig, members: seq<NodeConfig>, mesh: string, ghost st: ClusterState, ghost w0: World, ghost o: Outfit)
    returns (r: Result<seq<NodeInfo>>)
    requires p.Valid() && Planned(p, st, w0) && MembersNext(st, members, p.domain)
    requires SameDatastore(cfg, st) && UsableImage(cfg.datastoreImage)
    requires mesh == EtcdMesh(st.clusterName, p.domain, |WithRole(st.nodes, Datastore)|)
    requires Reached(w0, p.world, st, [], p.domain, |members|, o) && Issued(p.world, st.clusterName, members, w0.clock)
    modifies p`world, p`trace
    ensures p.Valid()
    ensures r.Ok? ==> Reached(w0, p.world, st, r.value, p.domain, |members|, o) && |r.value| == |members|
    ensures r.Err? ==> r.error == CliFailed
  {
    PlannedFacts(p, st, w0);
    hide *;
    var infos: seq<NodeInfo> := [];
    for i := 0 to |members|
      invariant p.Valid() && |infos| == i
      invariant Reached(w0, p.world, st, infos, p.domain, |members|, o) && Issued(p.world, st.clusterName, members, w0.clock)
    {
      ghost var w := p.world;
      var m := members[i];
      var tlsDir := TLSDir(p.world.root, cfg.name, m.name);
      MemberNext(w0, w, cfg, st, members, infos, mesh, p.domain, o);
      var info := RunNext(p, EtcdRunArgs(cfg, m, p.domain, mesh, tlsDir), m, infos, EtcdLaunch(cfg, m, p.domain, mesh, tlsDir), st, w0, |members|, o);
      if info.Err? {
        return Err(info.error);
      }
      StoreKept(w, p.world);
      IssuedStays(w, p.world, st.clusterName, members, w0.clock);
      infos := infos + [info.value];
    }
    r := Ok(infos);
  }

  lemma StoreKept(w: World, w': World)
    requires SameStore(w, w')
    ensures w'.volumes == w.volumes && w'.files == w.files && w'.root == w.root
  {
  }

  lemma PlannedFacts(p: Provisioner, st: ClusterState, w0: World)
    requires Planned(p, st, w0)
    ensures p.scope == st.clusterName && CleanText(st.clusterName) && Orderly(st, p.domain) && p.watch == CreatingFrom(w0, st.nodes, st.clusterName)
    ensures VolumesFree(p.watch) && FilesFree(p.watch)
  {
    CreatingVolumesFree(w0, st.nodes, st.clusterName);
    CreatingFilesFree(w0, st.nodes, st.clusterName);
  }

  lemma RanOnly(w: World, id: string, cmd: GuestCommand, x: string)
    ensures
      var w' := Ran(w, id, cmd);
      && w'.volumes == w.volumes && w'.files == w.files && w'.root == w.root
      && (At(w, x).Some? ==>
            At(w', x).Some? && At(w', x).value == At(w, x).value.(did := At(w', x).value.did) && At(w, x).value.did <= At(w', x).value.did)
  {
  }

  lemma StandsRan(w: World, id: string, cmd: GuestCommand, n: NodeInfo, st: ClusterState, d: string, o: Outfit)
    requires Stands(w, n, st, d, o)
    ensures Stands(Ran(w, id, cmd), n, st, d, o)
  {
    hide Stands;
    hide TLSDir;
    hide Ran;
    StandsThere(w, n, st, d, o);
    RanOnly(w, id, cmd, n.id);
    StandsKept(w, Ran(w, id, cmd), n, st, d, o);
  }

  /** What is run in a container leaves the bring-up where it was. */
  lemma ReachedRan(w0: World, w: World, id: string, cmd: GuestCommand, st: ClusterState, infos: seq<NodeInfo>, d: string, n: nat, o: Outfit)
    requires Reached(w0, w, st, infos, d, n, o)
    ensures Reached(w0, Ran(w, id, cmd), st, infos, d, n, o)
  {
    hide Stands;
    var w' := Ran(w, id, cmd);
    assert forall v :: Vol(w', v) == Vol(w, v);
    assert FileAt(w', TLSDir(w.root, st.clusterName, CLIENT)) == FileAt(w, TLSDir(w.root, st.clusterName, CLIENT));
    forall k: nat | k < |infos|
      ensures Stands(w', infos[k], st, d, o)
    {
      StandsRan(w, id, cmd, infos[k], st, d, o);
    }
  }

  lemma MayRun(p: Provisioner, st: ClusterState, infos: seq<NodeInfo>, w0: World, cmd: GuestCommand, k: nat, n: nat, o: Outfit)
    requires p.Valid() && Planned(p, st, w0) && Reached(w0, p.world, st, infos, p.domain, n, o) && k < |infos| && cmd !in FORWARDING
    ensures Owned(infos[k].id).Of(p.scope) && p.watch(Ran(p.world, infos[k].id, cmd))
  {
    hide Stands;
    hide Owned;
    hide Adding;
    p.Now();
    assert infos[k] in infos && st.nodes[k] in st.nodes;
    SameNode(st.nodes[k], infos[k]);
    NumberedOwner(st.nodes[k], st.clusterName, p.domain);
    CreatingSteady(w0, st.nodes, st.clusterName, infos[k].id);
  }

  /** A command other than the forwarding setup in one of the nodes. */
  method RunIn(p: Provisioner, id: string, cmd: GuestCommand, ghost infos: seq<NodeInfo>, ghost k: nat, ghost st: ClusterState, ghost w0: World, ghost n: nat, ghost o: Outfit)
    returns (r: Outcome)
    requires p.Valid() && Planned(p, st, w0) && Reached(w0, p.world, st, infos, p.domain, n, o)
    requires k < |infos| && id == infos[k].id && cmd !in FORWARDING
    modifies p`world, p`trace
    ensures p.Valid() && Reached(w0, p.world, st, infos, p.domain, n, o) && SameStore(old(p.world), p.world)
    ensures r.Pass? ==> Up(old(p.world), id) && p.world == Ran(old(p.world), id, cmd)
    ensures r.Fail? ==> r.error == CliFailed
  {
    ghost var w := p.world;
    hide Reached;
    hide Planned;
    MayRun(p, st, infos, w0, cmd, k, n, o);
    r := p.Exec(id, cmd);
    ReachedRan(w0, w, id, cmd, st, infos, p.domain, n, o);
  }

  /** The request behind the record. */
  ghost predicate Drafted(cfg: ClusterConfig, st: ClusterState, d: string) {
    Requested(cfg) && PlainImage(cfg.image) && st == Draft(cfg, d, st.serverURL)
  }

  lemma DraftOrderly(cfg: ClusterConfig, st: ClusterState, d: string)
    requires Drafted(cfg, st, d)
    ensures Orderly(st, d) && st.clusterName == cfg.name
  {
    hide NodeName;
    hide Numbered;
    LineupNamed(cfg, d);
    UniqueByName(st.nodes, cfg.name, d);
    forall i: nat, k: nat | i < |st.nodes| && k < |st.nodes| && StopRank(st.nodes[k].role) > StopRank(st.nodes[i].role)
      ensures k < i
    {
      LineupSorted(cfg, d, i, k);
    }
  }

  ghost predicate PartOf(part: seq<NodeConfig>, i: nat, all: seq<NodeConfig>) {
    i + |part| <= |all| && forall k: nat | k < |part| :: all[i + k] == part[k]
  }

  lemma PartsOf(e: seq<NodeConfig>, s: seq<NodeConfig>, l: seq<NodeConfig>, a: seq<NodeConfig>)
    ensures
      var all := e + (s + (l + a));
      && |all| == |e| + |s| + |l| + |a|
      && PartOf(e, 0, all) && PartOf(s, |e|, all) && PartOf(l, |e| + |s|, all) && PartOf(a, |e| + |s| + |l|, all)
  {
  }

  lemma PartNext(st: ClusterState, lineup: seq<NodeConfig>, i: nat, part: seq<NodeConfig>, d: string)
    requires st.nodes == Infos(lineup, d) && PartOf(part, i, lineup)
    ensures Next(st, i, part, d)
  {
  }

  lemma DraftLineup(cfg: ClusterConfig, st: ClusterState, d: string)
    requires Drafted(cfg, st, d)
    ensures
      var n := ServersIn(cfg.nodes);
      && n <= |cfg.nodes| && st.nodes == Infos(Lineup(cfg, d), d)
      && Lineup(cfg, d) == EtcdMembers(cfg) + (cfg.nodes[..n] + (LBNodes(cfg, d) + cfg.nodes[n..]))
  {
  }

  /** The lineup's parts are where the bring-up expects them. */
  lemma DraftParts(cfg: ClusterConfig, st: ClusterState, d: string)
    requires Drafted(cfg, st, d)
    ensures
      var e, n, l := |EtcdMembers(cfg)|, ServersIn(cfg.nodes), |LBNodes(cfg, d)|;
      && n <= |cfg.nodes|
      && Next(st, 0, EtcdMembers(cfg), d) && Next(st, e, cfg.nodes[..n], d) && Next(st, e + n, LBNodes(cfg, d), d)
      && Next(st, e + n + l, cfg.nodes[n..], d) && |st.nodes| == e + |cfg.nodes| + l
  {
    hide *;
    DraftLineup(cfg, st, d);
    var n := ServersIn(cfg.nodes);
    PartsOf(EtcdMembers(cfg), cfg.nodes[..n], LBNodes(cfg, d), cfg.nodes[n..]);
    PartNext(st, Lineup(cfg, d), 0, EtcdMembers(cfg), d);
    PartNext(st, Lineup(cfg, d), |EtcdMembers(cfg)|, cfg.nodes[..n], d);
    PartNext(st, Lineup(cfg, d), |EtcdMembers(cfg)| + n, LBNodes(cfg, d), d);
    PartNext(st, Lineup(cfg, d), |EtcdMembers(cfg)| + n + |LBNodes(cfg, d)|, cfg.nodes[n..], d);
  }

  lemma DraftManaged(cfg: ClusterConfig, st: ClusterState, d: string)
    requires Drafted(cfg, st, d)
    ensures |WithRole(st.nodes, Datastore)| == |EtcdMembers(cfg)|
    ensures forall m | m in EtcdMembers(cfg) :: m.role.Datastore?
  {
    hide NodeName;
    hide EtcdName;
    hide EtcdEndpoint;
    hide WithRole;
    LineupRoles(cfg, d);
  }

  lemma DraftUngated(cfg: ClusterConfig, st: ClusterState, w: World, d: string)
    requires Drafted(cfg, st, d) && Servable(cfg) && EtcdMembers(cfg) == []
    ensures Gated(w, st)
  {
    hide *;
    DraftManaged(cfg, st, d);
    FirstNotMember(st.nodes);
    NotGated(w, st);
  }

  lemma FirstNotMember(nodes: seq<NodeInfo>)
    requires WithRole(nodes, Datastore) == []
    ensures nodes != [] ==> !nodes[0].role.Datastore?
  {
  }

  lemma NotGated(w: World, st: ClusterState)
    requires st.nodes != [] ==> !st.nodes[0].role.Datastore?
    ensures Gated(w, st)
  {
  }

  datatype Backing = Backing(nodes: seq<NodeInfo>, endpoint: string, tlsDir: string)

  lemma NotForwarding(entries: string)
    ensures QuorumHealth !in FORWARDING && WriteHosts(entries) !in FORWARDING
  {
  }

  lemma DraftDatastore(cfg: ClusterConfig, st: ClusterState, d: string)
    requires Drafted(cfg, st, d)
    ensures SameDatastore(cfg, st)
  {
    hide Requested;
    hide Infos;
    hide Lineup;
    hide EndpointOf;
  }

  lemma OpeningFacts(p: Provisioner, cfg: ClusterConfig, st: ClusterState, w0: World, o: Outfit)
    requires p.Valid() && p.world == w0 && p.watch == CreatingFrom(w0, st.nodes, st.clusterName) && p.scope == cfg.name && Drafted(cfg, st, p.domain)
    ensures Planned(p, st, w0) && cfg.name == st.clusterName && UsableImage(cfg.datastoreImage) && HostPath(w0.root) && SameDatastore(cfg, st)
    ensures MembersNext(st, EtcdMembers(cfg), p.domain) && |WithRole(st.nodes, Datastore)| == |EtcdMembers(cfg)|
    ensures Servable(cfg) ==> |EtcdMembers(cfg)| < |st.nodes|
    ensures EtcdMembers(cfg) == [] && Servable(cfg) ==> Reached(w0, w0, st, [], p.domain, 0, o) && Gated(w0, st)
  {
    hide Stands;
    hide Adding;
    hide EtcdMembers;
    hide Numbered;
    hide ServerName;
    hide AgentName;
    p.Now();
    DraftOrderly(cfg, st, p.domain);
    DraftParts(cfg, st, p.domain);
    DraftManaged(cfg, st, p.domain);
    DraftDatastore(cfg, st, p.domain);
    if Servable(cfg) && EtcdMembers(cfg) == [] {
      DraftUngated(cfg, st, w0, p.domain);
    }
  }

  /** The record's datastore members are these. */
  ghost predicate Covered(st: ClusterState, members: seq<NodeConfig>) {
    forall n | n in st.nodes && n.role.Datastore? :: exists m :: m in members && m.name == n.name
  }

  lemma DraftCovered(cfg: ClusterConfig, st: ClusterState, d: string)
    requires Drafted(cfg, st, d)
    ensures Covered(st, EtcdMembers(cfg))
  {
    hide NodeName;
    hide EtcdName;
    hide EtcdEndpoint;
    LineupRoles(cfg, d);
    forall n | n in st.nodes && n.role.Datastore?
      ensures exists m :: m in EtcdMembers(cfg) && m.name == n.name
    {
      assert n in WithRole(st.nodes, Datastore);
      var k: nat :| k < |EtcdInfos(cfg, d)| && EtcdInfos(cfg, d)[k] == n;
      assert EtcdMembers(cfg)[k] in EtcdMembers(cfg);
    }
  }

  lemma Issues(w0: World, w1: World, w2: World, st: ClusterState, members: seq<NodeConfig>, d: string, c: string, g: nat, o: Outfit)
    requires c == st.clusterName && HostPath(w0.root) && |members| < |st.nodes|
    requires OnlyBundles(w0, w1, c) && w0.clock <= g && (forall m | m in members :: Holds(w1, c, m.name, g)) && Holds(w1, c, CLIENT, g)
    requires OnlyVolumes(w1, w2) && Stocked(w2, st, w1.clock, |members|) && Covered(st, members)
    ensures Issued(w2, c, members, w0.clock) && Reached(w0, w2, st, [], d, |members|, o)
  {
  }

  lemma BundleIssued(w0: World, w1: World, w2: World, c: string, g: nat)
    requires w0.clock <= g && Holds(w1, c, CLIENT, g) && OnlyVolumes(w1, w2)
    ensures FreshBundle(w2, c, w0.clock)
  {
  }

  /** The keys and the volumes of the members. */
  method IssueAndPrepare(p: Provisioner, c: string, members: seq<NodeConfig>, ghost st: ClusterState, ghost w0: World, ghost o: Outfit) returns (r: Outcome)
    requires p.Valid() && Planned(p, st, w0) && p.world == w0 && c == st.clusterName && MembersNext(st, members, p.domain) && HostPath(w0.root)
    requires |members| < |st.nodes| && Covered(st, members)
    modifies p`world, p`trace
    ensures p.Valid()
    ensures r.Pass? ==> Issued(p.world, c, members, w0.clock) && Reached(w0, p.world, st, [], p.domain, |members|, o)
    ensures r.Fail? && r.error.StaleVolume? ==> FreshBundle(p.world, c, w0.clock)
    ensures r.Fail? ==> !r.error.BadManifest?
  {
    hide *;
    PlannedFacts(p, st, w0);
    var names := set m | m in members :: m.name;
    var issued := DeliverTLS(p, c, names);
    if issued.Err? {
      return Fail(issued.error);
    }
    ghost var w1 := p.world;
    assert forall m | m in members :: m.name in names;
    r := PrepareMembers(p, c, members, st);
    BundleIssued(w0, w1, p.world, c, issued.value);
    if r.Pass? {
      Issues(w0, w1, p.world, st, members, p.domain, c, issued.value, o);
    }
  }

  /** provisionEtcdCluster, without the endpoint. */
  method ProvisionMembers(p: Provisioner, cfg: ClusterConfig, count: nat, ghost st: ClusterState, ghost w0: World, ghost o: Outfit) returns (r: Result<seq<NodeInfo>>)
    requires p.Valid() && p.world == w0 && p.watch == CreatingFrom(w0, st.nodes, st.clusterName) && p.scope == cfg.name && Drafted(cfg, st, p.domain)
    requires |EtcdMembers(cfg)| == count && count > 0 && Servable(cfg)
    modifies p`world, p`trace
    ensures p.Valid()
    ensures r.Ok? ==> Reached(w0, p.world, st, r.value, p.domain, count, o) && |r.value| == count && Gated(p.world, st)
    ensures r.Err? && r.error.StaleVolume? ==> FreshBundle(p.world, cfg.name, w0.clock)
    ensures r.Err? ==> !r.error.BadManifest?
  {
    hide *;
    OpeningFacts(p, cfg, st, w0, o);
    var mesh := EtcdInitialCluster(cfg.name, p.domain, count);
    var members := EtcdMembers(cfg);
    DraftCovered(cfg, st, p.domain);
    var prepared := IssueAndPrepare(p, cfg.name, members, st, w0, o);
    if prepared.Fail? {
      return Err(prepared.error);
    }
    r := LaunchMembers(p, cfg, members, mesh, st, w0, o);
    if r.Err? {
      return;
    }
    var formed := AwaitQuorum(p, r.value, st, w0, count, o);
    if formed.Fail? {
      return Err(formed.error);
    }
  }

  /** Each member answers, and the first reports a quorum. */
  method AwaitQuorum(p: Provisioner, infos: seq<NodeInfo>, ghost st: ClusterState, ghost w0: World, ghost n: nat, ghost o: Outfit) returns (r: Outcome)
    requires p.Valid() && Planned(p, st, w0) && Reached(w0, p.world, st, infos, p.domain, n, o) && infos != []
    modifies p`world, p`trace
    ensures p.Valid() && Reached(w0, p.world, st, infos, p.domain, n, o)
    ensures r.Pass? ==> Gated(p.world, st)
    ensures r.Fail? ==> r.error == CliFailed
  {
    hide *;
    for i := 0 to |infos|
      invariant p.Valid() && Reached(w0, p.world, st, infos, p.domain, n, o)
    {
      r := p.Await();
      if r.Fail? {
        return;
      }
    }
    NotForwarding("");
    ghost var w := p.world;
    r := RunIn(p, infos[0].id, QuorumHealth, infos, 0, st, w0, n, o);
    if r.Pass? {
      NowGated(w0, w, p.world, st, infos, p.domain, n, o);
    }
  }

  lemma NowGated(w0: World, w: World, w': World, st: ClusterState, infos: seq<NodeInfo>, d: string, n: nat, o: Outfit)
    requires Reached(w0, w, st, infos, d, n, o) && infos != [] && Up(w, infos[0].id) && w' == Ran(w, infos[0].id, QuorumHealth)
    ensures Gated(w', st)
  {
    hide Stands;
    SameNode(st.nodes[0], infos[0]);
  }

  lemma MemberCounts(cfg: ClusterConfig, d: string)
    requires ManagesDatastore(cfg) && ValidateEtcdMemberCount(MemberCount(cfg)).Pass?
    ensures MemberCount(cfg) >= 3 && MemberCount(cfg) % 2 == 1
    ensures |EtcdMembers(cfg)| == MemberCount(cfg) && EndpointOf(cfg, d) == EtcdEndpoint(cfg.name, d, MemberCount(cfg))
  {
  }

  /** The datastore the servers are pointed at is the request's own, or a quorum that stands. */
  ghost predicate Backed(w0: World, w: World, cfg: ClusterConfig, st: ClusterState, b: Backing, d: string, o: Outfit) {
    && Reached(w0, w, st, b.nodes, d, |b.nodes|, o) && |b.nodes| == |EtcdMembers(cfg)| && Gated(w, st)
    && b.endpoint == st.datastoreEndpoint
    && b.tlsDir == (if Managed(st) then TLSDir(w.root, st.clusterName, CLIENT) else "")
    && (ManagesDatastore(cfg) ==> d != "" && MemberCount(cfg) >= 3 && MemberCount(cfg) % 2 == 1)
  }

  lemma NothingBacked(p: Provisioner, cfg: ClusterConfig, st: ClusterState, w0: World, o: Outfit)
    requires p.Valid() && p.world == w0 && p.watch == CreatingFrom(w0, st.nodes, st.clusterName) && p.scope == cfg.name && Drafted(cfg, st, p.domain)
    requires !ManagesDatastore(cfg) && Servable(cfg)
    ensures Backed(w0, w0, cfg, st, Backing([], cfg.datastoreEndpoint, ""), p.domain, o)
  {
    OpeningFacts(p, cfg, st, w0, o);
  }

  lemma MembersBacked(w0: World, w: World, cfg: ClusterConfig, st: ClusterState, infos: seq<NodeInfo>, d: string, o: Outfit)
    requires Drafted(cfg, st, d) && ManagesDatastore(cfg) && d != "" && ValidateEtcdMemberCount(MemberCount(cfg)).Pass?
    requires Reached(w0, w, st, infos, d, |infos|, o) && |infos| == MemberCount(cfg) && Gated(w, st)
    ensures Backed(w0, w, cfg, st, Backing(infos, EtcdEndpoint(cfg.name, d, |infos|), TLSDir(w.root, cfg.name, CLIENT)), d, o)
  {
    hide Reached;
    hide Gated;
    hide EtcdEndpoint;
    MemberCounts(cfg, d);
  }

  /** setupDatastore. */
  method SetupDatastore(p: Provisioner, cfg: ClusterConfig, ghost st: ClusterState, ghost w0: World, ghost o: Outfit) returns (r: Result<Backing>)
    requires p.Valid() && p.world == w0 && p.watch == CreatingFrom(w0, st.nodes, st.clusterName) && p.scope == cfg.name && Drafted(cfg, st, p.domain) && Servable(cfg)
    modifies p`world, p`trace
    ensures p.Valid()
    ensures r.Ok? ==> Backed(w0, p.world, cfg, st, r.value, p.domain, o)
    ensures ManagesDatastore(cfg) && p.domain == "" ==> r == Err(NeedsDomain) && p.world == w0
    ensures !ManagesDatastore(cfg) ==> r.Ok? && p.world == w0
    ensures r.Err? && r.error.StaleVolume? ==> ManagesDatastore(cfg) && FreshBundle(p.world, cfg.name, w0.clock)
    ensures r.Err? ==> !r.error.BadManifest?
  {
    if !cfg.manageDatastore || cfg.datastoreEndpoint != "" {
      NothingBacked(p, cfg, st, w0, o);
      return Ok(Backing([], cfg.datastoreEndpoint, ""));
    }
    if p.domain == "" {
      return Err(NeedsDomain);
    }
    var count := MemberCount(cfg);
    var valid := ValidateEtcdMemberCount(count);
    if valid.Fail? {
      return Err(valid.error);
    }
    MemberCounts(cfg, p.domain);
    var members := ProvisionMembers(p, cfg, count, st, w0, o);
    if members.Err? {
      return Err(members.error);
    }
    MembersBacked(w0, p.world, cfg, st, members.value, p.domain, o);
    var endpoint := EtcdDatastoreEndpoint(cfg.name, p.domain, count);
    r := Ok(Backing(members.value, endpoint, TLSDir(p.world.root, cfg.name, CLIENT)));
  }

  // ---------------------------------------------------------------------------------------
  // Servers
  // ---------------------------------------------------------------------------------------

  /** The servers among these nodes, or the others, in order. */
  function Side(nodes: seq<NodeConfig>, servers: bool): seq<NodeConfig> {
    if nodes == [] then []
    else Side(nodes[..|nodes| - 1], servers) + if nodes[|nodes| - 1].role.Server? == servers then [nodes[|nodes| - 1]] else []
  }

  /** splitRoles. */
  method SplitRoles(nodes: seq<NodeConfig>) returns (servers: seq<NodeConfig>, agents: seq<NodeConfig>)
    ensures servers == Side(nodes, true) && agents == Side(nodes, false)
  {
    servers, agents := [], [];
    for i := 0 to |nodes|
      invariant servers == Side(nodes[..i], true) && agents == Side(nodes[..i], false)
    {
      assert nodes[..i + 1][..i] == nodes[..i];
      if nodes[i].role == Server {
        servers := servers + [nodes[i]];
      } else {
        agents := agents + [nodes[i]];
      }
    }
    assert nodes[..|nodes|] == nodes;
  }

  lemma SideMore(nodes: seq<NodeConfig>, n: NodeConfig, servers: bool)
    ensures Side(nodes + [n], servers) == Side(nodes, servers) + if n.role.Server? == servers then [n] else []
  {
    assert (nodes + [n])[..|nodes|] == nodes;
  }

  lemma {:induction false} SideOf(a: seq<NodeConfig>, b: seq<NodeConfig>, servers: bool)
    requires (forall n | n in a :: n.role.Server?) && forall n | n in b :: !n.role.Server?
    ensures Side(a + b, servers) == if servers then a else b
    decreases |a| + |b|
  {
    hide Side;
    if b != [] {
      var init, last := b[..|b| - 1], b[|b| - 1];
      assert b == init + [last] && a + b == (a + init) + [last];
      SideOf(a, init, servers);
      SideMore(a + init, last, servers);
    } else if a != [] {
      var init, last := a[..|a| - 1], a[|a| - 1];
      assert a == init + [last] && a + b == init + [last] && init + [] == init;
      SideOf(init, [], servers);
      SideMore(init, last, servers);
    } else {
      NoSides(servers);
      assert a + b == [];
    }
  }

  lemma NoSides(servers: bool)
    ensures Side([], servers) == []
  {
  }

  /** A request's servers come first. */
  lemma RequestSides(cfg: ClusterConfig)
    requires Requested(cfg)
    ensures Side(cfg.nodes, true) == cfg.nodes[..ServersIn(cfg.nodes)] && Side(cfg.nodes, false) == cfg.nodes[ServersIn(cfg.nodes)..]
  {
    var n := ServersIn(cfg.nodes);
    assert cfg.nodes == cfg.nodes[..n] + cfg.nodes[n..];
    SideOf(cfg.nodes[..n], cfg.nodes[n..], true);
    SideOf(cfg.nodes[..n], cfg.nodes[n..], false);
  }

  lemma RequestNodes(cfg: ClusterConfig, d: string)
    requires Requested(cfg)
    ensures K3sNodes(cfg.nodes, cfg.name, d)
  {
    hide ServerName;
    hide AgentName;
    forall n | n in cfg.nodes
      ensures n.role.IsK3s() && Numbered(InfoOf(n, d, ""), cfg.name, d)
    {
      var k: nat :| k < |cfg.nodes| && cfg.nodes[k] == n;
      NumberedAs(n, cfg.name, d, if n.role.Server? then k + 1 else k - ServersIn(cfg.nodes) + 1);
    }
  }

  lemma NumberedAs(n: NodeConfig, c: string, d: string, i: nat)
    requires n.role.IsK3s() && n.name == NodeName(c, n.role, i)
    ensures Numbered(InfoOf(n, d, ""), c, d)
  {
    assert InfoOf(n, d, "").name == NodeName(c, n.role, i);
  }

  /** With the k3s nodes' volumes made, everything the lineup needs is ready. */
  lemma AllStocked(w0: World, w: World, w': World, cfg: ClusterConfig, st: ClusterState, infos: seq<NodeInfo>, d: string, o: Outfit)
    requires Drafted(cfg, st, d) && Reached(w0, w, st, infos, d, |EtcdMembers(cfg)|, o) && Gated(w, st) && w0.clock <= w.clock
    requires OnlyVolumes(w, w') && FirstFresh(w', cfg.name, cfg.nodes, w.clock, |cfg.nodes|)
    ensures Reached(w0, w', st, infos, d, |st.nodes|, o)
  {
    hide Requested;
    hide Stands;
    hide Draft;
    hide Numbered;
    DraftNamed(cfg, st, d);
    DraftParts(cfg, st, d);
    assert forall id :: At(w', id) == At(w, id);
    assert forall path :: FileAt(w', path) == FileAt(w, path);
    ProgressOnward(w, w', st.nodes, infos, st, d, o);
    forall k: nat | k < |st.nodes| && VolumeOf(st.clusterName, st.nodes[k].role, st.nodes[k].name).Some?
      ensures FreshVolume(w', VolumeOf(st.clusterName, st.nodes[k].role, st.nodes[k].name).value, w0.clock)
    {
      VolumeReady(w0, w, w', cfg, st, d, k);
    }
  }

  lemma DraftNamed(cfg: ClusterConfig, st: ClusterState, d: string)
    requires Drafted(cfg, st, d)
    ensures st.clusterName == cfg.name
  {
  }

  lemma VolumeReady(w0: World, w: World, w': World, cfg: ClusterConfig, st: ClusterState, d: string, k: nat)
    requires Drafted(cfg, st, d) && Stocked(w, st, w0.clock, |EtcdMembers(cfg)|) && w0.clock <= w.clock && k < |st.nodes|
    requires OnlyVolumes(w, w') && FirstFresh(w', cfg.name, cfg.nodes, w.clock, |cfg.nodes|)
    requires VolumeOf(st.clusterName, st.nodes[k].role, st.nodes[k].name).Some?
    ensures FreshVolume(w', VolumeOf(st.clusterName, st.nodes[k].role, st.nodes[k].name).value, w0.clock)
  {
    hide *;
    var j := PlaceOf(cfg, st, d, k);
    if k < |EtcdMembers(cfg)| {
      MemberVolumeReady(w, w', st, w0.clock, |EtcdMembers(cfg)|, k);
    } else if st.nodes[k].role.LB? {
      NoVolumeOfLB(st, k);
    } else {
      K3sVolumeReady(w0, w, w', cfg, st, d, k, j);
    }
  }

  /** Which node of the request a node of the lineup is, if it is one. */
  lemma PlaceOf(cfg: ClusterConfig, st: ClusterState, d: string, k: nat) returns (j: nat)
    requires Drafted(cfg, st, d) && k < |st.nodes|
    ensures
      || k < |EtcdMembers(cfg)| || st.nodes[k].role.LB?
      || (j < |cfg.nodes| && st.nodes[k] == InfoOf(cfg.nodes[j], d, ""))
  {
    hide Drafted;
    hide EtcdMembers;
    hide LBNodes;
    hide InfoOf;
    hide ServersIn;
    DraftParts(cfg, st, d);
    var e, n, l := |EtcdMembers(cfg)|, ServersIn(cfg.nodes), |LBNodes(cfg, d)|;
    j := 0;
    if k < e {
    } else if k < e + n {
      NextAt(st, e, cfg.nodes[..n], k - e, d);
      j := k - e;
    } else if k < e + n + l {
      LBAt(cfg, st, d, k);
    } else {
      NextAt(st, e + n + l, cfg.nodes[n..], k - e - n - l, d);
      j := k - e - l;
    }
  }

  lemma MemberVolumeReady(w: World, w': World, st: ClusterState, t: nat, n: nat, k: nat)
    requires Stocked(w, st, t, n) && OnlyVolumes(w, w') && k < n && VolumeOf(st.clusterName, st.nodes[k].role, st.nodes[k].name).Some?
    ensures FreshVolume(w', VolumeOf(st.clusterName, st.nodes[k].role, st.nodes[k].name).value, t)
  {
  }

  lemma NoVolumeOfLB(st: ClusterState, k: nat)
    requires k < |st.nodes| && st.nodes[k].role.LB?
    ensures VolumeOf(st.clusterName, st.nodes[k].role, st.nodes[k].name) == None
  {
  }

  lemma LBAt(cfg: ClusterConfig, st: ClusterState, d: string, k: nat)
    requires Next(st, |EtcdMembers(cfg)| + ServersIn(cfg.nodes), LBNodes(cfg, d), d)
    requires 0 <= k - |EtcdMembers(cfg)| - ServersIn(cfg.nodes) < |LBNodes(cfg, d)|
    ensures k < |st.nodes| && st.nodes[k].role.LB?
  {
    var j := k - |EtcdMembers(cfg)| - ServersIn(cfg.nodes);
    assert st.nodes[|EtcdMembers(cfg)| + ServersIn(cfg.nodes) + j] == InfoOf(LBNodes(cfg, d)[j], d, "");
  }

  lemma K3sVolumeReady(w0: World, w: World, w': World, cfg: ClusterConfig, st: ClusterState, d: string, k: nat, j: nat)
    requires Drafted(cfg, st, d) && w0.clock <= w.clock && k < |st.nodes| && j < |cfg.nodes| && st.nodes[k] == InfoOf(cfg.nodes[j], d, "")
    requires FirstFresh(w', cfg.name, cfg.nodes, w.clock, |cfg.nodes|)
    ensures VolumeOf(st.clusterName, st.nodes[k].role, st.nodes[k].name) == Some(NodeVolumeName(st.clusterName, st.nodes[k].name))
    ensures FreshVolume(w', NodeVolumeName(st.clusterName, st.nodes[k].name), w0.clock)
  {
    hide NodeVolumeName;
    hide EtcdEndpoint;
    assert FreshVolume(w', NodeVolumeName(cfg.name, cfg.nodes[j].name), w.clock);
  }

  lemma StandsWritten(w: World, path: string, file: File, n: NodeInfo, st: ClusterState, d: string, o: Outfit)
    requires Stands(w, n, st, d, o) && path != TLSDir(w.root, st.clusterName, CLIENT)
    ensures Stands(Written(w, path, file), n, st, d, o)
  {
    hide Stands;
    hide TLSDir;
    StandsThere(w, n, st, d, o);
    assert forall v :: Vol(Written(w, path, file), v) == Vol(w, v);
    assert forall x :: x != path ==> FileAt(Written(w, path, file), x) == FileAt(w, x);
    StandsKept(w, Written(w, path, file), n, st, d, o);
  }

  lemma ReachedWritten(w0: World, w: World, path: string, file: File, st: ClusterState, infos: seq<NodeInfo>, d: string, n: nat, o: Outfit)
    requires Reached(w0, w, st, infos, d, n, o) && forall who :: path != TLSDir(w.root, st.clusterName, who)
    ensures Reached(w0, Written(w, path, file), st, infos, d, n, o)
  {
    hide Stands;
    hide TLSDir;
    var w' := Written(w, path, file);
    assert forall v :: Vol(w', v) == Vol(w, v);
    assert forall x :: x != path ==> FileAt(w', x) == FileAt(w, x);
    forall k: nat | k < |infos|
      ensures Stands(w', infos[k], st, d, o)
    {
      StandsWritten(w, path, file, infos[k], st, d, o);
    }
  }

  /** k3s's kubeconfig, the operator's, the load-balancer configuration, the record and the
      clients' keys lie apart. */
  lemma FilesApart(root: string, c: string)
    ensures
      var k, l, s, t, y := KubeconfigPath(root, c), ConfigDir(root, c), StatePath(root, c), TLSDir(root, c, CLIENT), K3sConfigPath(root, c);
      && k != l && k != s && k != t && l != s && l != t && s != t && y != k && y != l && y != s && y != t
      && Under(k, root, c) && Under(l, root, c) && Under(y, root, c)
      && forall who :: TLSDir(root, c, who) !in {k, l, y}
  {
    var front := ClusterDir(root, c) + "/";
    assert KubeconfigPath(root, c)[|front|] == 'k' && KubeconfigPath(root, c)[|front| + 1] == 'u';
    assert K3sConfigPath(root, c)[|front|] == 'k' && K3sConfigPath(root, c)[|front| + 1] == '3';
    assert ConfigDir(root, c)[|front|] == 'l';
    assert StatePath(root, c)[|front|] == 's';
    assert forall who :: TLSDir(root, c, who)[|front|] == 'e';
  }

  /** Only this file differs. */
  ghost predicate OnlyFile(w: World, w': World, path: string) {
    && w'.root == w.root && w'.volumes == w.volumes
    && forall x :: x != path ==> FileAt(w', x) == FileAt(w, x)
  }

  lemma MayPut(p: Provisioner, st: ClusterState, infos: seq<NodeInfo>, w0: World, path: string, text: string, n: nat, o: Outfit)
    requires p.Valid() && Planned(p, st, w0) && Reached(w0, p.world, st, infos, p.domain, n, o)
    requires path in {KubeconfigPath(p.world.root, st.clusterName), ConfigDir(p.world.root, st.clusterName), K3sConfigPath(p.world.root, st.clusterName)}
    ensures
      var w' := Written(p.world, path, Page(text));
      && Under(path, p.world.root, p.scope) && path != StatePath(p.world.root, p.scope)
      && p.watch(w') && p.watch(Written(p.world, path, Junk))
      && Reached(w0, w', st, infos, p.domain, n, o) && OnlyFile(p.world, w', path) && FileAt(w', path) == Some(Page(text))
  {
    hide Reached;
    hide Creating;
    p.Now();
    FilesApart(p.world.root, st.clusterName);
    CreatingFilesFree(w0, st.nodes, st.clusterName);
    ReachedWritten(w0, p.world, path, Page(text), st, infos, p.domain, n, o);
  }

  /** Writing the kubeconfig or the load-balancer configuration. */
  method Put(p: Provisioner, path: string, text: string, ghost infos: seq<NodeInfo>, ghost st: ClusterState, ghost w0: World, ghost n: nat, ghost o: Outfit)
    returns (r: Outcome)
    requires p.Valid() && Planned(p, st, w0) && Reached(w0, p.world, st, infos, p.domain, n, o)
    requires path == KubeconfigPath(p.world.root, st.clusterName) || path == ConfigDir(p.world.root, st.clusterName)
    modifies p`world, p`trace
    ensures p.Valid()
    ensures r.Pass? ==>
      Reached(w0, p.world, st, infos, p.domain, n, o) && OnlyFile(old(p.world), p.world, path) && FileAt(p.world, path) == Some(Page(text))
    ensures r.Fail? ==> r.error == CliFailed
  {
    hide Reached;
    hide Planned;
    MayPut(p, st, infos, w0, path, text, n, o);
    r := p.Write(path, Page(text));
  }

  /** The operator's kubeconfig is k3s's own, which is on disk beside it, pointed at this
      endpoint. */
  predicate Delivered(w: World, c: string, url: string) {
    match FileAt(w, K3sConfigPath(w.root, c))
    case Some(Page(raw)) => FileAt(w, KubeconfigPath(w.root, c)) == Some(Page(Kubeconfig.Rewrite(raw, url)))
    case _ => false
  }

  lemma DeliveredKept(w: World, w': World, c: string, url: string)
    requires Delivered(w, c, url) && w'.root == w.root && FileAt(w', KubeconfigPath(w.root, c)) == FileAt(w, KubeconfigPath(w.root, c))
    requires FileAt(w', K3sConfigPath(w.root, c)) == FileAt(w, K3sConfigPath(w.root, c))
    ensures Delivered(w', c, url)
  {
  }

  /** Until there are agents, the API endpoint of the record is open. */
  lemma AtAnyURL(w0: World, w: World, st: ClusterState, st': ClusterState, infos: seq<NodeInfo>, d: string, n: nat, o: Outfit)
    requires Reached(w0, w, st, infos, d, n, o) && st' == st.(serverURL := st'.serverURL)
    requires forall k: nat | k < |infos| :: !st.nodes[k].role.Agent?
    ensures Reached(w0, w, st', infos, d, n, o)
  {
    hide Stands;
    hide TLSDir;
    forall k: nat | k < |infos|
      ensures Stands(w, infos[k], st', d, o)
    {
      assert Stands(w, infos[k], st, d, o);
      SameNode(st.nodes[k], infos[k]);
      StandsAtAnyURL(w, infos[k], st, st', d, o);
    }
  }

  lemma StandsAtAnyURL(w: World, n: NodeInfo, st: ClusterState, st': ClusterState, d: string, o: Outfit)
    requires Stands(w, n, st, d, o) && st' == st.(serverURL := st'.serverURL) && !n.role.Agent?
    ensures Stands(w, n, st', d, o)
  {
    hide APILBConfig;
    hide Suits;
    hide TLSDir;
    hide TLSSource;
    hide MountedAt;
    hide EtcdMesh;
    hide EtcdCommand;
    hide ServerNames;
    SameMesh(st, st', n, n, d);
    SuitsAtAnyURL(At(w, n.id).value.launch, n, st, st', d, w.root);
  }

  lemma SuitsAtAnyURL(l: Launch, n: NodeInfo, st: ClusterState, st': ClusterState, d: string, root: string)
    requires Suits(l, n, st, d, root) && st' == st.(serverURL := st'.serverURL) && !n.role.Agent?
    ensures Suits(l, n, st', d, root)
  {
    hide Serves;
    hide KeyedBy;
    hide RunsMember;
    hide RunsProxy;
    hide EtcdMesh;
    hide TLSDir;
    hide ConfigDir;
    if n.role.IsK3s() {
      ServesAlike(l, st.clusterName, NodeConfigFromInfo(n), d, CommonIn(st), CommonIn(st'));
    }
  }

  /** k3s writing its kubeconfig leaves the bring-up where it was. */
  lemma MayLand(p: Provisioner, st: ClusterState, infos: seq<NodeInfo>, w0: World, n: nat, o: Outfit)
    requires p.Valid() && Planned(p, st, w0) && Reached(w0, p.world, st, infos, p.domain, n, o)
    ensures
      var path := K3sConfigPath(p.world.root, st.clusterName);
      && p.scope == st.clusterName && Under(path, p.world.root, p.scope) && path != StatePath(p.world.root, p.scope)
      && forall text :: p.watch(Written(p.world, path, Page(text))) && Reached(w0, Written(p.world, path, Page(text)), st, infos, p.domain, n, o)
  {
    hide Reached;
    hide Creating;
    hide K3sConfigPath;
    var path := K3sConfigPath(p.world.root, st.clusterName);
    MayPut(p, st, infos, w0, path, "", n, o);
    forall text
      ensures p.watch(Written(p.world, path, Page(text))) && Reached(w0, Written(p.world, path, Page(text)), st, infos, p.domain, n, o)
    {
      MayPut(p, st, infos, w0, path, text, n, o);
    }
  }

  lemma NowDelivered(w: World, w': World, c: string, raw: string, url: string)
    requires FileAt(w, K3sConfigPath(w.root, c)) == Some(Page(raw)) && OnlyFile(w, w', KubeconfigPath(w.root, c))
    requires FileAt(w', KubeconfigPath(w.root, c)) == Some(Page(Kubeconfig.Rewrite(raw, url)))
    ensures Delivered(w', c, url)
  {
    FilesApart(w.root, c);
  }

  /** deliverKubeconfig. */
  method DeliverKubeconfig(p: Provisioner, cfg: ClusterConfig, server: string, ip: Addr, ghost infos: seq<NodeInfo>, ghost st: ClusterState,
                           ghost w0: World, ghost n: nat, ghost o: Outfit)
    returns (r: Result<string>)
    requires p.Valid() && Planned(p, st, w0) && Reached(w0, p.world, st, infos, p.domain, n, o) && cfg.name == st.clusterName
    modifies p`world, p`trace
    ensures p.Valid()
    ensures r.Ok? ==>
      && Reached(w0, p.world, st, infos, p.domain, n, o) && p.world.root == old(p.world).root
      && r.value == ClusterAPIEndpoint(cfg, server, ip, p.domain)
      && Delivered(p.world, cfg.name, r.value)
    ensures r.Err? ==> r.error == CliFailed
  {
    hide Reached;
    hide Planned;
    hide Delivered;
    hide OnlyFile;
    hide ClusterAPIEndpoint;
    hide K3sConfigPath;
    hide KubeconfigPath;
    MayLand(p, st, infos, w0, n, o);
    var source := K3sConfigPath(p.world.root, cfg.name);
    var ready := p.AwaitKubeconfig(source);
    if ready.Fail? {
      return Err(ready.error);
    }
    var url := ClusterAPIEndpoint(cfg, server, ip, p.domain);
    var raw :- p.ReadPage(source);
    ghost var w := p.world;
    var written := Put(p, KubeconfigPath(p.world.root, cfg.name), Kubeconfig.Rewrite(raw, url), infos, st, w0, n, o);
    if written.Fail? {
      return Err(written.error);
    }
    SameRoot(w, p.world, KubeconfigPath(w.root, cfg.name));
    NowDelivered(w, p.world, cfg.name, raw, url);
    r := Ok(url);
  }

  lemma NextAt(st: ClusterState, k: nat, nodes: seq<NodeConfig>, i: nat, d: string)
    requires Next(st, k, nodes, d) && i < |nodes|
    ensures k + i < |st.nodes| && st.nodes[k + i] == InfoOf(nodes[i], d, "")
  {
  }

  /** launchJoinServers: the servers after the first, onto what has been launched. */
  method LaunchJoinServers(p: Provisioner, run: ClusterConfig, servers: seq<NodeConfig>, infos: seq<NodeInfo>, ghost st: ClusterState, ghost w0: World, ghost o: Outfit)
    returns (r: Result<seq<NodeInfo>>)
    requires p.Valid() && Planned(p, st, w0) && Reached(w0, p.world, st, infos, p.domain, |st.nodes|, o)
    requires Works(run, st, p.world.root, o) && run.name == st.clusterName
    requires Next(st, |infos|, servers, p.domain) && forall s | s in servers :: s.role.Server? && !Boots(s, st.clusterName)
    modifies p`world, p`trace
    ensures p.Valid()
    ensures r.Ok? ==>
      && Reached(w0, p.world, st, r.value, p.domain, |st.nodes|, o) && infos <= r.value && |r.value| == |infos| + |servers|
      && SameStore(old(p.world), p.world)
    ensures r.Err? ==> r.error == CliFailed
  {
    hide *;
    ghost var w1 := p.world;
    SameStoreSelf(w1);
    var all := infos;
    for i := 0 to |servers|
      invariant p.Valid() && |all| == |infos| + i && infos <= all
      invariant Reached(w0, p.world, st, all, p.domain, |st.nodes|, o) && SameStore(w1, p.world) && Works(run, st, p.world.root, o)
    {
      NextAt(st, |infos|, servers, i, p.domain);
      ghost var w := p.world;
      NotBoots(servers, i, st.clusterName);
      var info := LaunchNext(p, run, servers[i], "", "", all, st, w0, o);
      if info.Err? {
        return Err(info.error);
      }
      SameStoreMore(w1, w, p.world);
      StoreKept(w, p.world);
      var ready := p.Await();
      if ready.Fail? {
        return Err(ready.error);
      }
      all := all + [info.value];
    }
    r := Ok(all);
  }

  lemma IsServer(nodes: seq<NodeConfig>, i: nat)
    requires i < |nodes| && forall s | s in nodes :: s.role.Server?
    ensures nodes[i].role.IsK3s() && !nodes[i].role.Agent?
  {
  }

  lemma NotBoots(nodes: seq<NodeConfig>, i: nat, c: string)
    requires i < |nodes| && forall s | s in nodes :: s.role.Server? && !Boots(s, c)
    ensures nodes[i].role.IsK3s() && !nodes[i].role.Agent? && !Boots(nodes[i], c)
  {
    hide Boots;
  }

  /** launchAgents: the agents, pointed at the API endpoint, onto what has been launched. */
  method LaunchAgents(p: Provisioner, run: ClusterConfig, agents: seq<NodeConfig>, url: string, infos: seq<NodeInfo>, ghost st: ClusterState, ghost w0: World, ghost o: Outfit)
    returns (r: Result<seq<NodeInfo>>)
    requires p.Valid() && Planned(p, st, w0) && Reached(w0, p.world, st, infos, p.domain, |st.nodes|, o)
    requires Works(run, st, p.world.root, o) && run.name == st.clusterName && url == st.serverURL
    requires Next(st, |infos|, agents, p.domain) && forall a | a in agents :: a.role.Agent?
    modifies p`world, p`trace
    ensures p.Valid()
    ensures r.Ok? ==>
      && Reached(w0, p.world, st, r.value, p.domain, |st.nodes|, o) && infos <= r.value && |r.value| == |infos| + |agents|
      && SameStore(old(p.world), p.world)
    ensures r.Err? ==> r.error == CliFailed
  {
    hide *;
    ghost var w1 := p.world;
    SameStoreSelf(w1);
    var all := infos;
    for i := 0 to |agents|
      invariant p.Valid() && |all| == |infos| + i && infos <= all
      invariant Reached(w0, p.world, st, all, p.domain, |st.nodes|, o) && SameStore(w1, p.world) && Works(run, st, p.world.root, o)
    {
      NextAt(st, |infos|, agents, i, p.domain);
      ghost var w := p.world;
      IsAgent(agents, i);
      var info := LaunchNext(p, run, agents[i], url, "", all, st, w0, o);
      if info.Err? {
        return Err(info.error);
      }
      SameStoreMore(w1, w, p.world);
      StoreKept(w, p.world);
      all := all + [info.value];
    }
    r := Ok(all);
  }

  lemma IsAgent(nodes: seq<NodeConfig>, i: nat)
    requires i < |nodes| && forall a | a in nodes :: a.role.Agent?
    ensures nodes[i].role.IsK3s() && forall c :: !Boots(nodes[i], c)
  {
  }

  // ---------------------------------------------------------------------------------------
  // The load balancer
  // ---------------------------------------------------------------------------------------

  function NamesOf(servers: seq<NodeConfig>): (names: seq<string>)
    ensures |names| == |servers| && forall k: nat | k < |servers| :: names[k] == servers[k].name
  {
    seq(|servers|, k requires 0 <= k < |servers| => servers[k].name)
  }

  /** The backends bring-up asks for are the servers of the record it will leave. */
  lemma BackendsOfDraft(cfg: ClusterConfig, st: ClusterState, d: string)
    requires Drafted(cfg, st, d)
    ensures ServersIn(cfg.nodes) <= |cfg.nodes| && NamesOf(cfg.nodes[..ServersIn(cfg.nodes)]) == ServerNames(st.nodes)
  {
    hide ServerName;
    hide AgentName;
    hide EtcdEndpoint;
    hide WithRole;
    LineupRoles(cfg, d);
  }

  lemma LBNext(w0: World, w: World, cfg: ClusterConfig, st: ClusterState, infos: seq<NodeInfo>, node: NodeConfig, d: string, o: Outfit)
    requires Orderly(st, d) && Next(st, |infos|, [node], d) && node == NodeConfig(ApiLBName(cfg.name), LB, 0, 0, [], [])
    requires Reached(w0, w, st, infos, d, |st.nodes|, o) && SameDatastore(cfg, st)
    requires FileAt(w, ConfigDir(w.root, st.clusterName)) == Some(Page(APILBConfig(st.clusterName, ServerNames(st.nodes), d)))
    ensures
      var dir := ConfigDir(w.root, cfg.name);
      NextLaunch(w0, w, st, infos, LBRunArgs(cfg, d, dir), LBLaunch(cfg, d, dir), node, d, o)
  {
    hide APILBConfig;
    hide ReadRun;
    hide LBRunArgs;
    hide LBLaunch;
    hide MountedAt;
    hide NamedVolume;
    hide LabelValue;
    hide Owned;
    hide Progress;
    hide Stocked;
    hide Numbered;
    hide NodeFQDN;
    hide ApiLBName;
    hide RunsProxy;
    hide Serves;
    hide KeyedBy;
    hide RunsMember;
    NextAt(st, |infos|, [node], 0, d);
    DirIsHostPath(w.root, cfg.name, "lb");
    LBReads(cfg, d, ConfigDir(w.root, cfg.name));
  }

  /** provisionAPILB. */
  method ProvisionAPILB(p: Provisioner, cfg: ClusterConfig, servers: seq<NodeConfig>, infos: seq<NodeInfo>, ghost st: ClusterState, ghost w0: World, ghost o: Outfit)
    returns (r: Result<NodeInfo>)
    requires p.Valid() && Planned(p, st, w0) && Reached(w0, p.world, st, infos, p.domain, |st.nodes|, o) && cfg.name == st.clusterName
    requires SameDatastore(cfg, st)
    requires NamesOf(servers) == ServerNames(st.nodes)
    requires Next(st, |infos|, [NodeConfig(ApiLBName(cfg.name), LB, 0, 0, [], [])], p.domain)
    modifies p`world, p`trace
    ensures p.Valid()
    ensures r.Ok? ==>
      && Reached(w0, p.world, st, infos + [r.value], p.domain, |st.nodes|, o)
      && OnlyFile(old(p.world), p.world, ConfigDir(old(p.world).root, cfg.name))
    ensures r.Err? ==> r.error == CliFailed
  {
    hide *;
    PlannedFacts(p, st, w0);
    ghost var w := p.world;
    var node := NodeConfig(ApiLBName(cfg.name), LB, 0, 0, [], []);
    var dir := ConfigDir(p.world.root, cfg.name);
    var text := BuildAPILBConfig(cfg.name, NamesOf(servers), p.domain);
    var written := Put(p, dir, text, infos, st, w0, |st.nodes|, o);
    if written.Fail? {
      return Err(written.error);
    }
    ghost var w1 := p.world;
    SameRoot(w, w1, dir);
    LBNext(w0, w1, cfg, st, infos, node, p.domain, o);
    r := RunNext(p, LBRunArgs(cfg, p.domain, dir), node, infos, LBLaunch(cfg, p.domain, dir), st, w0, |st.nodes|, o);
    if r.Err? {
      return;
    }
    FileThenStore(w, w1, p.world, dir);
    var ready := p.Await();
    if ready.Fail? {
      return Err(ready.error);
    }
  }

  lemma SameRoot(w: World, w': World, path: string)
    requires OnlyFile(w, w', path)
    ensures w'.root == w.root
  {
  }

  lemma FileThenStore(w: World, w1: World, w2: World, path: string)
    requires OnlyFile(w, w1, path) && SameStore(w1, w2)
    ensures OnlyFile(w, w2, path)
  {
    assert forall x :: FileAt(w2, x) == FileAt(w1, x);
  }

  /** setupAPILB: a load balancer for several servers with names, else none. */
  method SetupAPILB(p: Provisioner, cfg: ClusterConfig, servers: seq<NodeConfig>, infos: seq<NodeInfo>, ghost st: ClusterState, ghost w0: World, ghost o: Outfit)
    returns (r: Result<seq<NodeInfo>>)
    requires p.Valid() && Planned(p, st, w0) && Reached(w0, p.world, st, infos, p.domain, |st.nodes|, o) && cfg.name == st.clusterName
    requires SameDatastore(cfg, st)
    requires NamesOf(servers) == ServerNames(st.nodes) && Next(st, |infos|, LBNodes(cfg, p.domain), p.domain)
    modifies p`world, p`trace
    ensures p.Valid()
    ensures r.Ok? ==>
      && Reached(w0, p.world, st, r.value, p.domain, |st.nodes|, o) && infos <= r.value && |r.value| == |infos| + |LBNodes(cfg, p.domain)|
      && OnlyFile(old(p.world), p.world, ConfigDir(old(p.world).root, cfg.name))
    ensures r.Err? ==> r.error == CliFailed
  {
    hide Reached;
    hide Planned;
    hide NamesOf;
    hide ServerNames;
    hide Next;
    hide ApiLBName;
    hide SameDatastore;
    if !cfg.provisionAPILB || p.domain == "" {
      return Ok(infos);
    }
    var info := ProvisionAPILB(p, cfg, servers, infos, st, w0, o);
    r := if info.Ok? then Ok(infos + [info.value]) else Err(info.error);
  }

  // ---------------------------------------------------------------------------------------
  // The end of bring-up
  // ---------------------------------------------------------------------------------------

  /** The first i nodes were given these entries. */
  ghost predicate Told(w: World, nodes: seq<NodeInfo>, entries: string, i: nat) {
    i <= |nodes| && forall k: nat | k < i :: Did(w, nodes[k].id, WriteHosts(entries))
  }

  lemma ToldMore(w: World, nodes: seq<NodeInfo>, entries: string, i: nat)
    requires Told(w, nodes, entries, i) && i < |nodes| && Up(w, nodes[i].id)
    ensures Told(Ran(w, nodes[i].id, WriteHosts(entries)), nodes, entries, i + 1)
  {
  }

  lemma NoneTold(w: World, nodes: seq<NodeInfo>, entries: string)
    ensures Told(w, nodes, entries, 0)
  {
  }

  /** writeClusterHosts: with resolvers of its own, every node is given one entry for every node. */
  method WriteClusterHosts(p: Provisioner, cfg: ClusterConfig, infos: seq<NodeInfo>, ghost st: ClusterState, ghost w0: World, ghost o: Outfit) returns (r: Outcome)
    requires p.Valid() && Planned(p, st, w0) && Reached(w0, p.world, st, infos, p.domain, |st.nodes|, o)
    modifies p`world, p`trace
    ensures p.Valid() && Reached(w0, p.world, st, infos, p.domain, |st.nodes|, o) && SameStore(old(p.world), p.world)
    ensures r.Pass? && cfg.dnsServers != [] && p.domain != "" ==> Told(p.world, infos, Hosts.Entries(infos, p.domain), |infos|)
    ensures r.Fail? ==> r.error == CliFailed
  {
    hide *;
    ghost var w1 := p.world;
    SameStoreSelf(w1);
    if cfg.dnsServers == [] || p.domain == "" {
      return Pass;
    }
    var entries := Hosts.BuildEntries(infos, p.domain);
    NotForwarding(entries);
    NoneTold(w1, infos, entries);
    for i := 0 to |infos|
      invariant p.Valid() && Reached(w0, p.world, st, infos, p.domain, |st.nodes|, o) && SameStore(w1, p.world) && Told(p.world, infos, entries, i)
    {
      ghost var w := p.world;
      r := RunIn(p, infos[i].id, WriteHosts(entries), infos, i, st, w0, |st.nodes|, o);
      SameStoreMore(w1, w, p.world);
      if r.Fail? {
        return;
      }
      ToldMore(w, infos, entries, i);
    }
    r := Pass;
  }

  /** Every recorded node is at the address its container has. */
  ghost predicate AtRecordedAddresses(w: World, nodes: seq<NodeInfo>) {
    forall n | n in nodes :: At(w, n.id).Some? && n.ips == [At(w, n.id).value.addr]
  }

  /** Every k3s node has the outfit. */
  ghost predicate AllFurnished(w: World, st: ClusterState, o: Outfit) {
    forall n | n in st.nodes :: At(w, n.id).Some? && Furnished(At(w, n.id).value.launch, n, st.clusterName, w.root, o)
  }

  /** What every successful bring-up leaves standing. */
  ghost predicate Sound(w0: World, w: World, st: ClusterState, d: string) {
    && (forall n | n in st.nodes :: At(w0, n.id).None? && Serving(w, n))
    && Stocked(w, st, w0.clock, |st.nodes|) && AtRecordedAddresses(w, st.nodes)
    && Faithful(w, st, d) && Balanced(w, st, d)
    && (Managed(st) ==> Rotation.FreshCA(w, st.nodes, w0.clock) && Rotation.Coherent(w, st.nodes, st.clusterName))
  }

  /** Once the whole lineup stands, the record with the addresses is sound. */
  lemma ReachedSound(w0: World, w: World, st: ClusterState, infos: seq<NodeInfo>, d: string, o: Outfit)
    requires Reached(w0, w, st, infos, d, |st.nodes|, o) && |infos| == |st.nodes| && CleanLineup(st)
    ensures Readdressed(st.nodes, infos) && Sound(w0, w, st.(nodes := infos), d) && AllFurnished(w, st.(nodes := infos), o)
  {
    hide APILBConfig;
    hide InPlace;
    hide TLSDir;
    hide Stands;
    hide Furnished;
    hide ServerNames;
    var st' := st.(nodes := infos);
    ReaddressedRole(st.nodes, infos, Datastore);
    SameServerNames(st.nodes, infos);
    forall n | n in infos
      ensures StandsFor(w0, w, n, st', d)
      ensures Furnished(At(w, n.id).value.launch, n, st.clusterName, w.root, o)
    {
      var k: nat :| k < |infos| && infos[k] == n;
      StandsSound(w0, w, n, st, st', d, o);
    }
    StockedReaddressed(w, st, infos, w0.clock);
    BundleReaddressed(w, st, infos);
    SoundOf(w0, w, st', d);
  }

  lemma BundleReaddressed(w: World, st: ClusterState, infos: seq<NodeInfo>)
    requires OneBundle(w, st) && Readdressed(st.nodes, infos)
    ensures OneBundle(w, st.(nodes := infos))
  {
    hide TLSDir;
    ReaddressedRole(st.nodes, infos, Datastore);
    forall n | n in infos && n.role.Datastore?
      ensures exists m :: m in st.nodes && m.role.Datastore? && m.name == n.name
    {
      var k: nat :| k < |infos| && infos[k] == n;
      SameNode(st.nodes[k], infos[k]);
      assert st.nodes[k] in st.nodes;
    }
  }

  lemma StockedReaddressed(w: World, st: ClusterState, infos: seq<NodeInfo>, t: nat)
    requires Stocked(w, st, t, |st.nodes|) && Readdressed(st.nodes, infos)
    ensures Stocked(w, st.(nodes := infos), t, |infos|)
  {
    forall k: nat | k < |infos|
      ensures VolumeOf(st.clusterName, infos[k].role, infos[k].name) == VolumeOf(st.clusterName, st.nodes[k].role, st.nodes[k].name)
    {
      SameNode(st.nodes[k], infos[k]);
    }
  }

  /** What a node of the finished record is. */
  ghost predicate StandsFor(w0: World, w: World, n: NodeInfo, st: ClusterState, d: string) {
    && At(w0, n.id).None? && Serving(w, n) && n.ips == [At(w, n.id).value.addr] && InPlace(w, n, st, d)
    && (n.role.LB? ==> At(w, n.id).value.config == Some(APILBConfig(st.clusterName, ServerNames(st.nodes), d)))
    && (Keyed(n, st) ==> At(w, n.id).value.ca.Some? && ClientKeys(w, st.clusterName) == Some(Keys(At(w, n.id).value.ca.value)))
  }

  lemma StandsSound(w0: World, w: World, n: NodeInfo, st: ClusterState, st': ClusterState, d: string, o: Outfit)
    requires Stands(w, n, st, d, o) && At(w0, n.id).None? && SameClaims(st, st') && ServerNames(st'.nodes) == ServerNames(st.nodes)
    requires |WithRole(st'.nodes, Datastore)| == |WithRole(st.nodes, Datastore)|
    ensures StandsFor(w0, w, n, st', d) && Furnished(At(w, n.id).value.launch, n, st.clusterName, w.root, o)
  {
    hide APILBConfig;
    hide InPlace;
    hide Furnished;
    hide TLSDir;
    hide ServerNames;
    InPlaceKept(w, w, st, st', n, n, d);
  }

  /** The cluster's and its servers' names are clean. */
  ghost predicate CleanLineup(st: ClusterState) {
    CleanText(st.clusterName) && forall name | name in ServerNames(st.nodes) :: CleanText(name)
  }

  lemma SoundOf(w0: World, w: World, st: ClusterState, d: string)
    requires (forall n | n in st.nodes :: StandsFor(w0, w, n, st, d)) && CleanLineup(st)
    requires Managed(st) ==> FreshBundle(w, st.clusterName, w0.clock)
    requires Stocked(w, st, w0.clock, |st.nodes|) && OneBundle(w, st)
    ensures Sound(w0, w, st, d)
  {
    if Managed(st) {
      StandCoherent(w0, w, st, d);
    }
    SoundApart(w0, w, st, d);
  }

  lemma StandCoherent(w0: World, w: World, st: ClusterState, d: string)
    requires (forall n | n in st.nodes :: StandsFor(w0, w, n, st, d)) && Managed(st)
    requires FreshBundle(w, st.clusterName, w0.clock) && OneBundle(w, st)
    ensures Rotation.Coherent(w, st.nodes, st.clusterName)
  {
    hide APILBConfig;
    hide Suits;
    hide MemberCommand;
    hide TLSDir;
    hide TLSSource;
    hide MountedAt;
    hide ServerNames;
    hide Managed;
    var g := ClientKeys(w, st.clusterName).value.generation;
    forall n | n in st.nodes && Rotation.Backs(n.role)
      ensures Holds(w, st.clusterName, BundleOf(n), g) && At(w, n.id).value.ca == Some(g)
    {
      assert StandsFor(w0, w, n, st, d) && Keyed(n, st);
    }
    assert Rotation.OnGeneration(w, st.nodes, st.clusterName, g);
    assert forall n | n in st.nodes && Rotation.Backs(n.role) :: StandsFor(w0, w, n, st, d);
  }

  lemma SoundApart(w0: World, w: World, st: ClusterState, d: string)
    requires forall n | n in st.nodes :: StandsFor(w0, w, n, st, d)
    requires Managed(st) ==> FreshBundle(w, st.clusterName, w0.clock)
    requires Stocked(w, st, w0.clock, |st.nodes|) && (Managed(st) ==> Rotation.Coherent(w, st.nodes, st.clusterName))
    requires CleanLineup(st)
    ensures Sound(w0, w, st, d)
  {
    hide Rotation.Coherent;
    hide APILBConfig;
    hide Routes;
    ConfigSpreads(st.clusterName, st.nodes, d);
    hide InPlace;
    hide TLSDir;
    hide ServerNames;
  }

  /** Saving the record leaves it sound. */
  lemma SoundSaved(w0: World, w: World, st: ClusterState, d: string, file: File)
    requires Sound(w0, w, st, d)
    ensures Sound(w0, Written(w, StatePath(w.root, st.clusterName), file), st, d)
  {
    hide APILBConfig;
    hide InPlace;
    hide StatePath;
    var w' := Written(w, StatePath(w.root, st.clusterName), file);
    assert forall x :: At(w', x) == At(w, x);
    FaithfulSaved(w, st, st.clusterName, d, file);
    if Managed(st) {
      CoherentSaved(w, st, file);
    }
  }

  lemma CoherentSaved(w: World, st: ClusterState, file: File)
    requires Rotation.Coherent(w, st.nodes, st.clusterName)
    ensures Rotation.Coherent(Written(w, StatePath(w.root, st.clusterName), file), st.nodes, st.clusterName)
  {
    hide TLSDir;
    hide StatePath;
    hide TLSSource;
    var w' := Written(w, StatePath(w.root, st.clusterName), file);
    var g: nat :| Rotation.OnGeneration(w, st.nodes, st.clusterName, g);
    assert forall x :: At(w', x) == At(w, x);
    forall n | n in st.nodes && Rotation.Backs(n.role)
      ensures Holds(w', st.clusterName, BundleOf(n), g)
    {
      BundleApart(w.root, st.clusterName, BundleOf(n));
      assert Holds(w, st.clusterName, BundleOf(n), g);
    }
    assert Rotation.OnGeneration(w', st.nodes, st.clusterName, g);
  }

  /** The request with the token and image that are used. */
  function Settled(request: ClusterConfig, token: string): ClusterConfig {
    request.(token := token, image := ResolvedImage(request.image))
  }

  /** What a successful create leaves: the requested lineup, all new, all serving, at different
      addresses, recorded as it is, behind the endpoint the kubeconfig names. */
  ghost predicate Created(w0: World, w: World, request: ClusterConfig, st: ClusterState, d: string) {
    var cfg := Settled(request, st.token);
    var created :=
      && Servable(request) && (request.token != "" ==> st.token == request.token)
      && ServersIn(cfg.nodes) <= |cfg.nodes|
      && st == Draft(cfg, d, st.serverURL).(nodes := st.nodes) && Readdressed(Infos(Lineup(request, d), d), st.nodes)
      && Shape(st, request.name, d)
      && st.network == request.network && st.datastoreImage == request.datastoreImage && st.previousImage == ""
      && st.image == (if request.image == "" then "rancher/k3s:v1.32.5-k3s1" else request.image)
      && (!ManagesDatastore(request) ==> st.datastoreEndpoint == request.datastoreEndpoint)
      && |WithRole(st.nodes, Server)| > 0
      && var first := WithRole(st.nodes, Server)[0];
      && first.ips != [] && st.serverURL == ClusterAPIEndpoint(request, first.name, first.ips[0], d)
      && Sound(w0, w, st, d) && DistinctIPs(st.nodes)
      && SavedOf(w, request.name) == Present(st)
      && Delivered(w, request.name, st.serverURL)
      && (request.dnsServers != [] && d != "" ==> Told(w, st.nodes, Hosts.Entries(st.nodes, d), |st.nodes|));
    created
  }

  /** The files of the host that the requested paths lead to, in order. */
  ghost predicate Found(host: Host, asked: seq<string>, manifests: seq<string>) {
    && |manifests| == |asked|
    && forall k: nat | k < |asked| :: asked[k] in host.manifests && manifests[k] == host.manifests[asked[k]]
  }

  /** Every k3s node has the requested environment, resolvers and CA directory, and the first server
      the requested manifests. */
  ghost predicate OutfitAsked(host: Host, w: World, st: ClusterState, request: ClusterConfig) {
    exists manifests: seq<string> ::
      && Found(host, request.manifests, manifests)
      && AllFurnished(w, st, Outfit(request.envVars, request.dnsServers, request.caDir, manifests))
  }

  lemma EndpointIsRight(cfg: ClusterConfig, st: ClusterState, ip: Addr, d: string)
    requires Requested(cfg) && Servable(cfg)
    ensures RightURL(cfg, d, ClusterAPIEndpoint(cfg, ServerName(cfg.name, 1), ip, d))
  {
  }

  lemma SettledRequest(request: ClusterConfig, token: string, d: string)
    requires Requested(request)
    ensures
      var cfg := Settled(request, token);
      && Requested(cfg) && PlainImage(cfg.image) && (Servable(cfg) <==> Servable(request))
      && Infos(Lineup(cfg, d), d) == Infos(Lineup(request, d), d)
      && ManagesDatastore(cfg) == ManagesDatastore(request) && cfg.name == request.name
  {
    hide ServerName;
    hide AgentName;
    hide EtcdName;
    ResolvedRuns(request.image);
    assert EtcdMembers(Settled(request, token)) == EtcdMembers(request);
  }

  /** The datastore is up, and all volumes are made. */
  ghost predicate Ready(w0: World, w: World, cfg: ClusterConfig, st: ClusterState, b: Backing, d: string, o: Outfit) {
    && Reached(w0, w, st, b.nodes, d, |st.nodes|, o) && |b.nodes| == |EtcdMembers(cfg)|
    && b.endpoint == st.datastoreEndpoint
    && b.tlsDir == (if Managed(st) then TLSDir(w.root, st.clusterName, CLIENT) else "")
    && (ManagesDatastore(cfg) ==> d != "" && MemberCount(cfg) >= 3 && MemberCount(cfg) % 2 == 1)
  }

  lemma BackedReady(w0: World, w: World, w': World, cfg: ClusterConfig, st: ClusterState, b: Backing, d: string, o: Outfit)
    requires Drafted(cfg, st, d) && Backed(w0, w, cfg, st, b, d, o) && w0.clock <= w.clock
    requires OnlyVolumes(w, w') && FirstFresh(w', cfg.name, cfg.nodes, w.clock, |cfg.nodes|)
    ensures Ready(w0, w', cfg, st, b, d, o)
  {
    hide Reached;
    hide Drafted;
    hide EtcdMembers;
    AllStocked(w0, w, w', cfg, st, b.nodes, d, o);
  }

  lemma NodesFacts(p: Provisioner, cfg: ClusterConfig, st: ClusterState, w0: World)
    requires p.Valid() && p.watch == CreatingFrom(w0, st.nodes, st.clusterName) && Drafted(cfg, st, p.domain)
    ensures VolumesFree(p.watch) && K3sNodes(cfg.nodes, cfg.name, p.domain) && w0.clock <= p.world.clock
  {
    p.Now();
    CreatingVolumesFree(w0, st.nodes, st.clusterName);
    RequestNodes(cfg, p.domain);
  }

  /** What a create refused by the guard leaves: with a managed datastore its new keys; else the
      volumes made before the one that was there. */
  ghost predicate GuardLeaves(w0: World, w: World, cfg: ClusterConfig) {
    if ManagesDatastore(cfg) then FreshBundle(w, cfg.name, w0.clock) else Refused(w0, w, cfg.name, cfg.nodes)
  }

  lemma ManagedLeaves(w0: World, w: World, cfg: ClusterConfig)
    ensures ManagesDatastore(cfg) && FreshBundle(w, cfg.name, w0.clock) ==> GuardLeaves(w0, w, cfg)
  {
  }

  lemma VolumesLeave(w0: World, w: World, w': World, cfg: ClusterConfig, st: ClusterState, b: Backing, d: string, o: Outfit)
    requires Drafted(cfg, st, d) && Backed(w0, w, cfg, st, b, d, o) && OnlyVolumes(w, w') && (!ManagesDatastore(cfg) ==> w == w0)
    ensures ManagesDatastore(cfg) || Refused(w, w', cfg.name, cfg.nodes) ==> GuardLeaves(w0, w', cfg)
  {
    hide *;
    DraftNamed(cfg, st, d);
    if ManagesDatastore(cfg) {
      BackedBundle(w0, w, cfg, st, b, d, o);
      BundleStays(w, w', cfg.name, w0.clock);
      ManagedLeaves(w0, w', cfg);
    } else {
      UnmanagedLeaves(w0, w', cfg);
    }
  }

  lemma UnmanagedLeaves(w0: World, w: World, cfg: ClusterConfig)
    requires !ManagesDatastore(cfg)
    ensures Refused(w0, w, cfg.name, cfg.nodes) ==> GuardLeaves(w0, w, cfg)
  {
  }

  lemma BackedBundle(w0: World, w: World, cfg: ClusterConfig, st: ClusterState, b: Backing, d: string, o: Outfit)
    requires Drafted(cfg, st, d) && Backed(w0, w, cfg, st, b, d, o) && ManagesDatastore(cfg)
    ensures FreshBundle(w, st.clusterName, w0.clock)
  {
    hide Drafted;
    hide Progress;
    hide Stocked;
    hide Gated;
    hide FreshBundle;
    DraftManaged(cfg, st, d);
  }

  lemma BundleStays(w: World, w': World, c: string, t: nat)
    requires FreshBundle(w, c, t) && OnlyVolumes(w, w')
    ensures FreshBundle(w', c, t)
  {
  }

  /** setupDatastore and prepareNodeVolumes. */
  method PrepareAll(p: Provisioner, cfg: ClusterConfig, ghost st: ClusterState, ghost w0: World, ghost o: Outfit) returns (r: Result<Backing>)
    requires p.Valid() && p.world == w0 && p.watch == CreatingFrom(w0, st.nodes, st.clusterName) && p.scope == cfg.name && Drafted(cfg, st, p.domain) && Servable(cfg)
    modifies p`world, p`trace
    ensures p.Valid()
    ensures r.Ok? ==> Ready(w0, p.world, cfg, st, r.value, p.domain, o)
    ensures ManagesDatastore(cfg) && p.domain == "" ==> r.Err? && p.world == w0
    ensures r.Err? && r.error.StaleVolume? ==> GuardLeaves(w0, p.world, cfg)
    ensures r.Err? ==> !r.error.BadManifest?
  {
    hide *;
    r := SetupDatastore(p, cfg, st, w0, o);
    if r.Err? {
      ManagedLeaves(w0, p.world, cfg);
      return;
    }
    NodesFacts(p, cfg, st, w0);
    ghost var w := p.world;
    var prepared := PrepareNodeVolumes(p, cfg.name, cfg.nodes);
    if prepared.Fail? {
      VolumesLeave(w0, w, p.world, cfg, st, r.value, p.domain, o);
      return Err(prepared.error);
    }
    BackedReady(w0, w, p.world, cfg, st, r.value, p.domain, o);
  }

  /** The configuration the nodes are launched with. */
  function RunConfig(cfg: ClusterConfig, b: Backing, manifests: seq<string>): ClusterConfig {
    cfg.(datastoreEndpoint := b.endpoint, datastoreTLSDir := b.tlsDir, manifests := manifests)
  }

  lemma RunConfigWorks(w0: World, w: World, cfg: ClusterConfig, st: ClusterState, b: Backing, manifests: seq<string>, d: string, o: Outfit)
    requires Drafted(cfg, st, d) && Ready(w0, w, cfg, st, b, d, o) && (forall m | m in manifests :: HostPath(m)) && OutfitOf(RunConfig(cfg, b, manifests)) == o
    ensures Works(RunConfig(cfg, b, manifests), st, w.root, o)
  {
    hide Reached;
    hide Requested;
    hide EtcdMembers;
    hide TLSDir;
  }

  lemma FirstServer(p: Provisioner, cfg: ClusterConfig, st: ClusterState, infos: seq<NodeInfo>, w0: World, n: nat, o: Outfit)
    requires Drafted(cfg, st, p.domain) && Servable(cfg) && |infos| == |EtcdMembers(cfg)| && Reached(w0, p.world, st, infos, p.domain, n, o)
    requires p.watch == CreatingFrom(w0, st.nodes, st.clusterName) && p.scope == cfg.name
    ensures Planned(p, st, w0) && |cfg.nodes| > 0 && |infos| < |st.nodes|
    ensures st.nodes[|infos|] == InfoOf(cfg.nodes[0], p.domain, "") && cfg.nodes[0].role.Server? && cfg.nodes[0].name == ServerName(cfg.name, 1)
    ensures HostPath(ClusterDir(p.world.root, cfg.name))
  {
    hide Progress;
    hide EtcdMembers;
    hide ServerName;
    hide AgentName;
    DraftOrderly(cfg, st, p.domain);
    DraftParts(cfg, st, p.domain);
    NextAt(st, |infos|, cfg.nodes[..ServersIn(cfg.nodes)], 0, p.domain);
    DirIsHostPath(p.world.root, cfg.name, "");
  }

  /** The first server and its kubeconfig stand. */
  ghost predicate Opened(w0: World, w: World, run: ClusterConfig, st: ClusterState, before: nat, infos: seq<NodeInfo>, server: string, url: string, d: string, o: Outfit) {
    && Reached(w0, w, st, infos, d, |st.nodes|, o) && |infos| == before + 1 && infos[before].ips != []
    && url == ClusterAPIEndpoint(run, server, infos[before].ips[0], d) && Delivered(w, run.name, url)
  }

  lemma NowOpen(w0: World, w: World, run: ClusterConfig, st: ClusterState, infos: seq<NodeInfo>, info: NodeInfo, server: NodeConfig, url: string, d: string,
                addr: Addr, o: Outfit)
    requires Reached(w0, w, st, infos + [info], d, |st.nodes|, o) && info == InfoOf(server, d, addr)
    requires url == ClusterAPIEndpoint(run, server.name, info.ips[0], d) && Delivered(w, run.name, url)
    ensures Opened(w0, w, run, st, |infos|, infos + [info], server.name, url, d, o)
  {
    hide Reached;
    hide Delivered;
    hide ClusterAPIEndpoint;
  }

  /** The bootstrap server, launched with the kubeconfig mount, and the kubeconfig it
      delivers. */
  method LaunchFirst(p: Provisioner, run: ClusterConfig, server: NodeConfig, infos: seq<NodeInfo>, ghost st: ClusterState, ghost w0: World, ghost o: Outfit)
    returns (r: Result<(seq<NodeInfo>, string)>)
    requires p.Valid() && Planned(p, st, w0) && Reached(w0, p.world, st, infos, p.domain, |st.nodes|, o) && |infos| < |st.nodes|
    requires Works(run, st, p.world.root, o) && run.name == st.clusterName && server.role.Server?
    requires st.nodes[|infos|] == InfoOf(server, p.domain, "") && HostPath(ClusterDir(p.world.root, run.name))
    modifies p`world, p`trace
    ensures p.Valid()
    ensures r.Ok? ==> Opened(w0, p.world, run, st, |infos|, r.value.0, server.name, r.value.1, p.domain, o) && p.world.root == old(p.world).root
    ensures r.Err? ==> r.error == CliFailed
  {
    hide *;
    IsServer([server], 0);
    ghost var w := p.world;
    var info := LaunchNext(p, run, server, "", ClusterDir(p.world.root, run.name), infos, st, w0, o);
    if info.Err? {
      return Err(info.error);
    }
    StoreKept(w, p.world);
    ghost var addr :| info.value == InfoOf(server, p.domain, addr);
    Addressable(info.value, server, p.domain, addr);
    var url := DeliverKubeconfig(p, run, server.name, info.value.ips[0], infos + [info.value], st, w0, |st.nodes|, o);
    if url.Err? {
      return Err(url.error);
    }
    NowOpen(w0, p.world, run, st, infos, info.value, server, url.value, p.domain, addr, o);
    r := Ok((infos + [info.value], url.value));
  }

  lemma Addressable(info: NodeInfo, node: NodeConfig, d: string, addr: Addr)
    requires info == InfoOf(node, d, addr)
    ensures |info.ips| == 1
  {
  }

  lemma DeliveredStore(w: World, w': World, c: string, url: string)
    requires Delivered(w, c, url) && SameStore(w, w')
    ensures Delivered(w', c, url)
  {
  }

  lemma DeliveredBeside(w: World, w': World, c: string, url: string)
    requires Delivered(w, c, url) && OnlyFile(w, w', ConfigDir(w.root, c))
    ensures Delivered(w', c, url)
  {
    FilesApart(w.root, c);
    DeliveredKept(w, w', c, url);
  }

  /** Only the first server is the one whose kubeconfig is delivered. */
  lemma JoinServers(cfg: ClusterConfig)
    requires Requested(cfg) && ServersIn(cfg.nodes) >= 1
    ensures forall s | s in cfg.nodes[..ServersIn(cfg.nodes)][1..] :: s.role.Server? && !Boots(s, cfg.name)
  {
    hide ServerName;
    hide AgentName;
    var servers := cfg.nodes[..ServersIn(cfg.nodes)];
    forall s | s in servers[1..]
      ensures s.role.Server? && !Boots(s, cfg.name)
    {
      var k: nat :| k < |servers[1..]| && servers[1..][k] == s;
      assert s == cfg.nodes[k + 1];
      if s.name == ServerName(cfg.name, 1) {
        NodeNameInjective(cfg.name, Server, k + 2, cfg.name, Server, 1);
      }
    }
  }

  /** Where the rest of the lineup is, once the first server stands. */
  lemma RestOfLineup(cfg: ClusterConfig, st: ClusterState, d: string)
    requires Drafted(cfg, st, d) && Servable(cfg)
    ensures
      var e, n, l := |EtcdMembers(cfg)|, ServersIn(cfg.nodes), |LBNodes(cfg, d)|;
      && 1 <= n <= |cfg.nodes|
      && Next(st, e + 1, cfg.nodes[..n][1..], d) && (forall s | s in cfg.nodes[..n][1..] :: s.role.Server? && !Boots(s, st.clusterName))
      && Next(st, e + n, LBNodes(cfg, d), d)
      && Next(st, e + n + l, cfg.nodes[n..], d) && (forall a | a in cfg.nodes[n..] :: a.role.Agent?)
      && |st.nodes| == e + |cfg.nodes| + l
      && NamesOf(cfg.nodes[..n]) == ServerNames(st.nodes)
  {
    hide EtcdMembers;
    hide LBNodes;
    hide ServerName;
    hide AgentName;
    hide Draft;
    hide NamesOf;
    hide ServerNames;
    hide Boots;
    DraftNamed(cfg, st, d);
    JoinServers(cfg);
    DraftParts(cfg, st, d);
    BackendsOfDraft(cfg, st, d);
    var servers := cfg.nodes[..ServersIn(cfg.nodes)];
    forall k: nat | k < |servers[1..]|
      ensures st.nodes[|EtcdMembers(cfg)| + 1 + k] == InfoOf(servers[1..][k], d, "")
    {
      NextAt(st, |EtcdMembers(cfg)|, servers, k + 1, d);
    }
  }

  /** The join servers, the load balancer and the agents. */
  method LaunchRest(p: Provisioner, cfg: ClusterConfig, run: ClusterConfig, servers: seq<NodeConfig>, agents: seq<NodeConfig>, url: string,
                    infos: seq<NodeInfo>, ghost st: ClusterState, ghost w0: World, ghost o: Outfit)
    returns (r: Result<seq<NodeInfo>>)
    requires p.Valid() && Planned(p, st, w0) && Reached(w0, p.world, st, infos, p.domain, |st.nodes|, o)
    requires Works(run, st, p.world.root, o) && run.name == st.clusterName == cfg.name && url == st.serverURL && Delivered(p.world, run.name, url)
    requires Drafted(cfg, st, p.domain) && Servable(cfg) && |infos| == |EtcdMembers(cfg)| + 1
    requires ServersIn(cfg.nodes) <= |cfg.nodes| && servers == cfg.nodes[..ServersIn(cfg.nodes)] && agents == cfg.nodes[ServersIn(cfg.nodes)..]
    modifies p`world, p`trace
    ensures p.Valid()
    ensures r.Ok? ==>
      && Reached(w0, p.world, st, r.value, p.domain, |st.nodes|, o) && infos <= r.value && |r.value| == |st.nodes|
      && Delivered(p.world, run.name, url)
    ensures r.Err? ==> r.error == CliFailed
  {
    hide *;
    RestOfLineup(cfg, st, p.domain);
    DraftDatastore(cfg, st, p.domain);
    ghost var w := p.world;
    r := LaunchJoinServers(p, run, servers[1..], infos, st, w0, o);
    if r.Err? {
      return;
    }
    ghost var w1 := p.world;
    DeliveredStore(w, w1, run.name, url);
    var balanced := SetupAPILB(p, cfg, servers, r.value, st, w0, o);
    if balanced.Err? {
      return balanced;
    }
    ghost var w2 := p.world;
    DeliveredBeside(w1, w2, run.name, url);
    StoreKept(w, w1);
    SameRoot(w1, w2, ConfigDir(w1.root, cfg.name));
    r := LaunchAgents(p, run, agents, url, balanced.value, st, w0, o);
    if r.Ok? {
      DeliveredStore(w2, p.world, run.name, url);
    }
  }

  lemma DraftClean(cfg: ClusterConfig, st: ClusterState, d: string)
    requires Drafted(cfg, st, d)
    ensures CleanLineup(st)
  {
    hide Drafted;
    hide Numbered;
    hide ServerNames;
    hide Distinct;
    DraftOrderly(cfg, st, d);
    CleanServers(st.nodes, st.clusterName, d);
  }

  lemma SoundDraft(w0: World, w: World, request: ClusterConfig, cfg: ClusterConfig, st: ClusterState, infos: seq<NodeInfo>, d: string, o: Outfit)
    requires Drafted(cfg, st, d) && Servable(cfg) && cfg == Settled(request, cfg.token) && Requested(request)
    requires ManagesDatastore(cfg) ==> d != "" && MemberCount(cfg) >= 3 && MemberCount(cfg) % 2 == 1
    requires Reached(w0, w, st, infos, d, |st.nodes|, o) && |infos| == |st.nodes|
    requires RightURL(cfg, d, st.serverURL)
    ensures
      var st' := st.(nodes := infos);
      Sound(w0, w, st', d) && AllFurnished(w, st', o) && Shape(st', cfg.name, d) && Readdressed(Infos(Lineup(request, d), d), infos)
  {
    hide Reached;
    hide Sound;
    hide Shape;
    hide Servable;
    hide RightURL;
    hide EtcdMember;
    hide EtcdEndpoint;
    hide CleanLineup;
    hide AllFurnished;
    DraftClean(cfg, st, d);
    ReachedSound(w0, w, st, infos, d, o);
    DraftShape(cfg, d, st.serverURL);
    UsableParts(st, cfg.name, d);
    ShapeReaddressed(st, st.(nodes := infos), cfg.name, d);
    SettledRequest(request, cfg.token, d);
  }

  lemma UsableParts(st: ClusterState, c: string, d: string)
    requires Shape(st, c, d)
    ensures st.clusterName == c && UsableImage(st.image) && UsableImage(st.datastoreImage) && UsableImage(st.previousImage)
  {
  }

  lemma {:induction false} FirstOfRole(nodes: seq<NodeInfo>, k: nat, role: Role)
    requires k < |nodes| && nodes[k].role == role && forall j: nat | j < k :: nodes[j].role != role
    ensures WithRole(nodes, role) != [] && WithRole(nodes, role)[0] == nodes[k]
  {
    if k > 0 {
      FirstOfRole(nodes[1..], k - 1, role);
    }
  }

  /** The first recorded server is the one after the datastore members. */
  lemma FirstRecorded(cfg: ClusterConfig, st: ClusterState, infos: seq<NodeInfo>, d: string)
    requires Drafted(cfg, st, d) && Servable(cfg) && Readdressed(st.nodes, infos)
    ensures |EtcdMembers(cfg)| < |infos|
    ensures WithRole(infos, Server) != [] && WithRole(infos, Server)[0] == infos[|EtcdMembers(cfg)|]
    ensures infos[|EtcdMembers(cfg)|].name == cfg.nodes[0].name
  {
    hide *;
    DraftStarts(cfg, st, d);
    var e := |EtcdMembers(cfg)|;
    SameAll(st.nodes, infos);
    FirstOfRole(infos, e, Server);
  }

  lemma SameAll(a: seq<NodeInfo>, b: seq<NodeInfo>)
    requires Readdressed(a, b)
    ensures |a| == |b| && forall k: nat | k < |a| :: b[k].role == a[k].role && b[k].name == a[k].name
  {
    forall k: nat | k < |a|
      ensures b[k].role == a[k].role && b[k].name == a[k].name
    {
      SameNode(a[k], b[k]);
    }
  }

  /** The lineup starts with the datastore members, and then the first server. */
  lemma DraftStarts(cfg: ClusterConfig, st: ClusterState, d: string)
    requires Drafted(cfg, st, d) && Servable(cfg)
    ensures |EtcdMembers(cfg)| < |st.nodes| && |cfg.nodes| > 0
    ensures st.nodes[|EtcdMembers(cfg)|].role == Server && st.nodes[|EtcdMembers(cfg)|].name == cfg.nodes[0].name
    ensures forall k: nat | k < |EtcdMembers(cfg)| :: st.nodes[k].role == Datastore
  {
    hide Draft;
    hide EtcdMembers;
    hide ServerName;
    hide AgentName;
    DraftParts(cfg, st, d);
    DraftManaged(cfg, st, d);
    NextAt(st, |EtcdMembers(cfg)|, cfg.nodes[..ServersIn(cfg.nodes)], 0, d);
    forall k: nat | k < |EtcdMembers(cfg)|
      ensures st.nodes[k].role == Datastore
    {
      NextAt(st, 0, EtcdMembers(cfg), k, d);
    }
  }

  lemma MaySave(p: Provisioner, st: ClusterState, st': ClusterState, w0: World)
    requires p.Valid() && p.watch == CreatingFrom(w0, st.nodes, st.clusterName) && Readdressed(st.nodes, st'.nodes)
    ensures
      var path := StatePath(p.world.root, st.clusterName);
      p.watch(Written(p.world, path, Record(st'))) && p.watch(Written(p.world, path, Junk))
  {
    p.Now();
    CreatingWritten(w0, p.world, st.nodes, st.clusterName, StatePath(p.world.root, st.clusterName), Record(st'));
    CreatingWritten(w0, p.world, st.nodes, st.clusterName, StatePath(p.world.root, st.clusterName), Junk);
  }

  /** The saved record is what was created. */
  lemma NowCreated(w0: World, w: World, request: ClusterConfig, cfg: ClusterConfig, st: ClusterState, infos: seq<NodeInfo>, d: string, url: string, o: Outfit, host: Host)
    requires Requested(request) && cfg == Settled(request, cfg.token) && (request.token != "" ==> cfg.token == request.token)
    requires Drafted(cfg, st, d) && Servable(cfg) && st.serverURL == url
    requires Readdressed(Infos(Lineup(request, d), d), infos) && Readdressed(st.nodes, infos)
    requires Shape(st.(nodes := infos), cfg.name, d) && Sound(w0, w, st.(nodes := infos), d) && DistinctIPs(infos)
    requires |EtcdMembers(cfg)| < |infos| && infos[|EtcdMembers(cfg)|].ips != []
    requires |cfg.nodes| > 0 && url == ClusterAPIEndpoint(cfg, cfg.nodes[0].name, infos[|EtcdMembers(cfg)|].ips[0], d)
    requires Found(host, cfg.manifests, o.manifests) && o == Outfit(cfg.envVars, cfg.dnsServers, cfg.caDir, o.manifests)
    requires AllFurnished(w, st.(nodes := infos), o)
    requires Delivered(w, cfg.name, url) && (cfg.dnsServers != [] && d != "" ==> Told(w, infos, Hosts.Entries(infos, d), |infos|))
    ensures Created(w0, Written(w, StatePath(w.root, cfg.name), Record(st.(nodes := infos))), request, st.(nodes := infos), d)
    ensures OutfitAsked(host, Written(w, StatePath(w.root, cfg.name), Record(st.(nodes := infos))), st.(nodes := infos), request)
  {
    hide Sound;
    hide OutfitAsked;
    hide Found;
    hide AllFurnished;
    hide Shape;
    hide EtcdMembers;
    hide EtcdEndpoint;
    hide Delivered;
    hide Told;
    hide TLSDir;
    hide KubeconfigPath;
    hide K3sConfigPath;
    hide StatePath;
    hide ConfigDir;
    hide Requested;
    hide Lineup;
    hide Infos;
    hide WithRole;
    hide DistinctIPs;
    hide ClusterAPIEndpoint;
    var st' := st.(nodes := infos);
    DraftLineup(cfg, st, d);
    FirstRecorded(cfg, st, infos, d);
    SameRequest(request, cfg, d);
    ShapeNamed(st', cfg.name, d);
    SavedKeeps(w0, w, st', d, url, infos, Hosts.Entries(infos, d));
    FurnishedSaved(w, st', request, o, host, StatePath(w.root, cfg.name), Record(st'));
  }

  lemma FurnishedSaved(w: World, st: ClusterState, request: ClusterConfig, o: Outfit, host: Host, path: string, file: File)
    requires AllFurnished(w, st, o) && o == Outfit(request.envVars, request.dnsServers, request.caDir, o.manifests)
    requires Found(host, request.manifests, o.manifests)
    ensures OutfitAsked(host, Written(w, path, file), st, request)
  {
    hide Furnished;
    hide Found;
    assert forall x :: At(Written(w, path, file), x) == At(w, x);
    assert AllFurnished(Written(w, path, file), st, o);
  }

  lemma SameRequest(request: ClusterConfig, cfg: ClusterConfig, d: string)
    requires cfg == Settled(request, cfg.token)
    ensures Servable(cfg) <==> Servable(request)
    ensures forall server, ip :: ClusterAPIEndpoint(cfg, server, ip, d) == ClusterAPIEndpoint(request, server, ip, d)
  {
    hide ClusterAPIFQDN;
    hide HttpsURL;
  }

  /** What saving the record leaves. */
  lemma SavedKeeps(w0: World, w: World, st: ClusterState, d: string, url: string, infos: seq<NodeInfo>, entries: string)
    requires Sound(w0, w, st, d) && Delivered(w, st.clusterName, url)
    ensures
      var w' := Written(w, StatePath(w.root, st.clusterName), Record(st));
      && Sound(w0, w', st, d) && Delivered(w', st.clusterName, url) && SavedOf(w', st.clusterName) == Present(st)
      && (Told(w, infos, entries, |infos|) ==> Told(w', infos, entries, |infos|))
  {
    hide Sound;
    hide Delivered;
    hide Told;
    hide KubeconfigPath;
    hide K3sConfigPath;
    hide StatePath;
    var w' := Written(w, StatePath(w.root, st.clusterName), Record(st));
    SoundSaved(w0, w, st, d, Record(st));
    FilesApart(w.root, st.clusterName);
    assert FileAt(w', KubeconfigPath(w.root, st.clusterName)) == FileAt(w, KubeconfigPath(w.root, st.clusterName));
    assert FileAt(w', K3sConfigPath(w.root, st.clusterName)) == FileAt(w, K3sConfigPath(w.root, st.clusterName));
    DeliveredKept(w, w', st.clusterName, url);
    ToldSaved(w, infos, entries, StatePath(w.root, st.clusterName), Record(st));
  }

  lemma ToldSaved(w: World, nodes: seq<NodeInfo>, entries: string, path: string, file: File)
    ensures Told(w, nodes, entries, |nodes|) ==> Told(Written(w, path, file), nodes, entries, |nodes|)
  {
  }

  /** writeClusterHosts, the address check and the record. */
  method Finish(p: Provisioner, cfg: ClusterConfig, endpoint: string, url: string, infos: seq<NodeInfo>, ghost request: ClusterConfig, ghost st: ClusterState,
                ghost w0: World, ghost o: Outfit, ghost host: Host)
    returns (r: Result<ClusterState>)
    requires p.Valid() && Planned(p, st, w0) && Reached(w0, p.world, st, infos, p.domain, |st.nodes|, o) && |infos| == |st.nodes|
    requires Drafted(cfg, st, p.domain) && Servable(cfg) && cfg == Settled(request, cfg.token) && Requested(request)
    requires request.token != "" ==> cfg.token == request.token
    requires ManagesDatastore(cfg) ==> p.domain != "" && MemberCount(cfg) >= 3 && MemberCount(cfg) % 2 == 1
    requires url == st.serverURL && endpoint == st.datastoreEndpoint && RightURL(cfg, p.domain, url)
    requires |EtcdMembers(cfg)| < |infos| && infos[|EtcdMembers(cfg)|].ips != []
    requires |cfg.nodes| > 0 && url == ClusterAPIEndpoint(cfg, cfg.nodes[0].name, infos[|EtcdMembers(cfg)|].ips[0], p.domain)
    requires Delivered(p.world, cfg.name, url)
    requires Found(host, cfg.manifests, o.manifests) && o == Outfit(cfg.envVars, cfg.dnsServers, cfg.caDir, o.manifests)
    modifies p`world, p`trace
    ensures p.Valid()
    ensures r.Ok? ==> Created(w0, p.world, request, r.value, p.domain) && OutfitAsked(host, p.world, r.value, request)
    ensures r.Err? ==> !r.error.StaleVolume? && !r.error.BadManifest?
  {
    hide *;
    ghost var w := p.world;
    var hosts := WriteClusterHosts(p, cfg, infos, st, w0, o);
    if hosts.Fail? {
      return Err(hosts.error);
    }
    DeliveredStore(w, p.world, cfg.name, url);
    var distinct := AssertDistinctIPs(infos);
    if distinct.Fail? {
      return Err(distinct.error);
    }
    var st' := ClusterState(cfg.name, cfg.network, cfg.token, cfg.image, endpoint, cfg.datastoreImage, "", url, infos);
    DraftWith(cfg, st, infos, p.domain);
    PlannedFacts(p, st, w0);
    ghost var w1 := p.world;
    SoundDraft(w0, w1, request, cfg, st, infos, p.domain, o);
    ReachedAddresses(w0, w1, st, infos, p.domain, o);
    MaySave(p, st, st', w0);
    var saved := p.SaveState(st');
    if saved.Fail? {
      return Err(saved.error);
    }
    NowCreated(w0, w1, request, cfg, st, infos, p.domain, url, o, host);
    r := Ok(st');
  }

  lemma ReachedAddresses(w0: World, w: World, st: ClusterState, infos: seq<NodeInfo>, d: string, o: Outfit)
    requires Reached(w0, w, st, infos, d, |st.nodes|, o) && |infos| == |st.nodes|
    ensures Readdressed(st.nodes, infos)
  {
    hide Stands;
  }

  lemma DraftWith(cfg: ClusterConfig, st: ClusterState, infos: seq<NodeInfo>, d: string)
    requires Drafted(cfg, st, d)
    ensures ClusterState(cfg.name, cfg.network, cfg.token, cfg.image, st.datastoreEndpoint, cfg.datastoreImage, "", st.serverURL, infos) == st.(nodes := infos)
    ensures st.clusterName == cfg.name
  {
    hide EtcdEndpoint;
  }

  lemma DraftAt(cfg: ClusterConfig, d: string, url: string)
    requires Requested(cfg) && PlainImage(cfg.image)
    ensures ServersIn(cfg.nodes) <= |cfg.nodes|
    ensures Drafted(cfg, Draft(cfg, d, url), d) && Draft(cfg, d, url).nodes == Infos(Lineup(cfg, d), d) && Draft(cfg, d, url).clusterName == cfg.name
  {
  }

  /** With the endpoint known, the same bring-up goes on towards the record that names it. */
  lemma Redirect(p: Provisioner, cfg: ClusterConfig, run: ClusterConfig, st: ClusterState, infos: seq<NodeInfo>, url: string, w0: World, o: Outfit)
    requires Planned(p, st, w0) && Reached(w0, p.world, st, infos, p.domain, |st.nodes|, o) && Drafted(cfg, st, p.domain) && Servable(cfg)
    requires |infos| == |EtcdMembers(cfg)| + 1 && Works(run, st, p.world.root, o)
    ensures
      var st' := st.(serverURL := url);
      && Planned(p, st', w0) && Reached(w0, p.world, st', infos, p.domain, |st'.nodes|, o) && Drafted(cfg, st', p.domain)
      && Works(run, st', p.world.root, o) && st'.nodes == st.nodes && st'.clusterName == st.clusterName
      && st'.datastoreEndpoint == st.datastoreEndpoint
  {
    hide Stands;
    hide Requested;
    hide EtcdMembers;
    hide ServerName;
    hide AgentName;
    NoAgents(cfg, st, p.domain);
    AtAnyURL(w0, p.world, st, st.(serverURL := url), infos, p.domain, |st.nodes|, o);
  }

  lemma NoAgents(cfg: ClusterConfig, st: ClusterState, d: string)
    requires Drafted(cfg, st, d) && Servable(cfg)
    ensures |EtcdMembers(cfg)| < |st.nodes| && forall k: nat | k < |EtcdMembers(cfg)| + 1 :: !st.nodes[k].role.Agent?
  {
    hide *;
    DraftStarts(cfg, st, d);
  }

  /** The nodes after the datastore, and the record. */
  method LaunchAll(p: Provisioner, cfg: ClusterConfig, b: Backing, manifests: seq<string>, ghost request: ClusterConfig, ghost st: ClusterState, ghost w0: World, ghost o: Outfit, ghost host: Host)
    returns (r: Result<ClusterState>)
    requires p.Valid() && p.watch == CreatingFrom(w0, st.nodes, st.clusterName) && p.scope == cfg.name && Drafted(cfg, st, p.domain)
    requires Ready(w0, p.world, cfg, st, b, p.domain, o) && (forall m | m in manifests :: HostPath(m)) && OutfitOf(RunConfig(cfg, b, manifests)) == o
    requires Found(host, cfg.manifests, manifests)
    requires Servable(cfg) && cfg == Settled(request, cfg.token) && Requested(request) && (request.token != "" ==> cfg.token == request.token)
    modifies p`world, p`trace
    ensures p.Valid()
    ensures r.Ok? ==> Created(w0, p.world, request, r.value, p.domain) && OutfitAsked(host, p.world, r.value, request)
    ensures r.Err? ==> !r.error.StaleVolume? && !r.error.BadManifest?
  {
    hide *;
    var servers, agents := SplitRoles(cfg.nodes);
    var run := RunConfig(cfg, b, manifests);
    OutfitIs(cfg, b, manifests, o);
    MayOpen(p, cfg, run, b, manifests, st, w0, o);
    var server := servers[0];
    var first := LaunchFirst(p, run, server, b.nodes, st, w0, o);
    if first.Err? {
      return Err(first.error);
    }
    var infos, url := first.value.0, first.value.1;
    OpenedFacts(w0, p.world, cfg, run, st, b, infos, server.name, url, p.domain, o);
    ghost var st' := st.(serverURL := url);
    Redirect(p, cfg, run, st, infos, url, w0, o);
    var all := LaunchRest(p, cfg, run, servers, agents, url, infos, st', w0, o);
    if all.Err? {
      return Err(all.error);
    }
    r := Finish(p, cfg, b.endpoint, url, all.value, request, st', w0, o, host);
  }

  lemma OutfitIs(cfg: ClusterConfig, b: Backing, manifests: seq<string>, o: Outfit)
    requires OutfitOf(RunConfig(cfg, b, manifests)) == o
    ensures o == Outfit(cfg.envVars, cfg.dnsServers, cfg.caDir, manifests)
  {
  }

  /** The datastore alone has no outfit. */
  lemma ReadyForAny(w0: World, w: World, cfg: ClusterConfig, st: ClusterState, b: Backing, d: string, o: Outfit, o': Outfit)
    requires Ready(w0, w, cfg, st, b, d, o) && Drafted(cfg, st, d) && Servable(cfg)
    ensures Ready(w0, w, cfg, st, b, d, o')
  {
    hide InPlace;
    hide Furnished;
    hide APILBConfig;
    hide EtcdMembers;
    hide Drafted;
    hide TLSDir;
    hide Stocked;
    hide Gated;
    hide OneBundle;
    DraftStarts(cfg, st, d);
    forall k: nat | k < |b.nodes|
      ensures Stands(w, b.nodes[k], st, d, o')
    {
      assert Stands(w, b.nodes[k], st, d, o);
      SameNode(st.nodes[k], b.nodes[k]);
      NoOutfit(At(w, b.nodes[k].id).value.launch, b.nodes[k], st.clusterName, w.root, o');
    }
  }

  lemma NoOutfit(l: Launch, n: NodeInfo, c: string, root: string, o: Outfit)
    requires !n.role.IsK3s()
    ensures Furnished(l, n, c, root, o)
  {
  }

  lemma MayOpen(p: Provisioner, cfg: ClusterConfig, run: ClusterConfig, b: Backing, manifests: seq<string>, st: ClusterState, w0: World, o: Outfit)
    requires p.Valid() && p.watch == CreatingFrom(w0, st.nodes, st.clusterName) && p.scope == cfg.name && Drafted(cfg, st, p.domain)
    requires Ready(w0, p.world, cfg, st, b, p.domain, o) && (forall m | m in manifests :: HostPath(m)) && Servable(cfg)
    requires run == RunConfig(cfg, b, manifests) && OutfitOf(run) == o
    ensures Planned(p, st, w0) && Reached(w0, p.world, st, b.nodes, p.domain, |st.nodes|, o) && |b.nodes| < |st.nodes| && |b.nodes| == |EtcdMembers(cfg)|
    ensures Works(run, st, p.world.root, o) && run.name == st.clusterName == cfg.name && b.endpoint == st.datastoreEndpoint
    ensures ServersIn(cfg.nodes) <= |cfg.nodes| && Side(cfg.nodes, true) == cfg.nodes[..ServersIn(cfg.nodes)] && Side(cfg.nodes, false) == cfg.nodes[ServersIn(cfg.nodes)..]
    ensures |Side(cfg.nodes, true)| > 0 && Side(cfg.nodes, true)[0] == cfg.nodes[0] && |cfg.nodes| > 0
    ensures cfg.nodes[0].role.Server? && cfg.nodes[0].name == ServerName(cfg.name, 1)
    ensures st.nodes[|b.nodes|] == InfoOf(cfg.nodes[0], p.domain, "") && HostPath(ClusterDir(p.world.root, run.name))
    ensures ManagesDatastore(cfg) ==> p.domain != "" && MemberCount(cfg) >= 3 && MemberCount(cfg) % 2 == 1
    ensures Requested(cfg) && run.provisionAPILB == cfg.provisionAPILB
  {
    hide Reached;
    hide Planned;
    hide Works;
    hide Side;
    hide EtcdMembers;
    hide Draft;
    hide AgentName;
    hide ServerName;
    hide MemberCount;
    DraftNamed(cfg, st, p.domain);
    FirstServer(p, cfg, st, b.nodes, w0, |st.nodes|, o);
    RunConfigWorks(w0, p.world, cfg, st, b, manifests, p.domain, o);
    RequestSides(cfg);
  }

  lemma OpenedFacts(w0: World, w: World, cfg: ClusterConfig, run: ClusterConfig, st: ClusterState, b: Backing, infos: seq<NodeInfo>, server: string, url: string, d: string, o: Outfit)
    requires Opened(w0, w, run, st, |b.nodes|, infos, server, url, d, o) && Requested(cfg) && Servable(cfg)
    requires run.name == cfg.name && run.provisionAPILB == cfg.provisionAPILB && server == ServerName(cfg.name, 1)
    ensures Reached(w0, w, st, infos, d, |st.nodes|, o) && |infos| == |b.nodes| + 1 && infos[|b.nodes|].ips != [] && Delivered(w, run.name, url)
    ensures RightURL(cfg, d, url) && url == ClusterAPIEndpoint(cfg, server, infos[|b.nodes|].ips[0], d)
  {
    hide Reached;
    hide Delivered;
    hide ServerName;
    hide ClusterAPIFQDN;
    EndpointIsRight(cfg, st, infos[|b.nodes|].ips[0], d);
  }

  /** Manifests are absolute paths without ':'. */
  ghost predicate Pathed(host: Host) {
    forall m | m in host.manifests :: HostPath(host.manifests[m])
  }

  /** resolveManifests, when there are any. */
  method ResolveRequested(host: Host, manifests: seq<string>) returns (r: Result<seq<string>>)
    requires Pathed(host)
    ensures r.Ok? <==> Resolvable(host, manifests)
    ensures r.Ok? ==> Found(host, manifests, r.value) && forall m | m in r.value :: HostPath(m)
    ensures r.Err? ==> !r.error.StaleVolume?
  {
    if manifests == [] {
      return Ok([]);
    }
    r := ResolveManifests(host, manifests);
    if r.Ok? {
      forall k: nat | k < |manifests|
        ensures HostPath(r.value[k])
      {
        assert manifests[k] in manifests;
      }
    }
  }

  /** The network, the DNS domain and the state directory are outside this model: each of the
      checks passes or fails. */
  method CheckHost(domain: string) returns (r: Outcome)
    ensures r.Fail? ==> !r.error.StaleVolume? && !r.error.BadManifest?
  {
    var network: bool, resolver: bool, dir: bool := *, *, *;
    if !network {
      return Fail(CliFailed);
    }
    if domain != "" && !resolver {
      return Fail(NoSuchDomain);
    }
    r := if dir then Pass else Fail(CliFailed);
  }

  /** The bring-up of a request that was let through. */
  method BringUp(p: Provisioner, host: Host, cfg: ClusterConfig, ghost request: ClusterConfig, ghost st: ClusterState, ghost w0: World)
    returns (r: Result<ClusterState>)
    requires Pathed(host) && p.Valid() && p.world == w0 && p.watch == CreatingFrom(w0, st.nodes, st.clusterName) && p.scope == cfg.name && Drafted(cfg, st, p.domain)
    requires Servable(cfg) && cfg == Settled(request, cfg.token) && Requested(request) && (request.token != "" ==> cfg.token == request.token)
    modifies p`world, p`trace
    ensures p.Valid()
    ensures ManagesDatastore(cfg) && p.domain == "" ==> r.Err? && p.world == w0
    ensures r.Ok? ==> Created(w0, p.world, request, r.value, p.domain) && OutfitAsked(host, p.world, r.value, request)
    ensures !Resolvable(host, cfg.manifests) ==> r.Err?
    ensures r.Err? && r.error.StaleVolume? ==> GuardLeaves(w0, p.world, cfg)
    ensures r.Err? && r.error.BadManifest? ==> HalfUp(w0, p.world, st, |EtcdMembers(cfg)|)
  {
    hide *;
    ghost var o := OutfitOf(cfg);
    var backing := PrepareAll(p, cfg, st, w0, o);
    if backing.Err? {
      return Err(backing.error);
    }
    ReadyNamed(w0, p.world, cfg, st, backing.value, p.domain, o);
    var manifests := ResolveRequested(host, cfg.manifests);
    if manifests.Err? {
      ReadyHalfUp(w0, p.world, cfg, st, backing.value, p.domain, o);
      return Err(manifests.error);
    }
    ghost var o' := OutfitOf(RunConfig(cfg, backing.value, manifests.value));
    ReadyForAny(w0, p.world, cfg, st, backing.value, p.domain, o, o');
    r := LaunchAll(p, cfg, backing.value, manifests.value, request, st, w0, o', host);
  }

  /** All volumes of the lineup were made in this operation, and its first n nodes run. */
  ghost predicate HalfUp(w0: World, w: World, st: ClusterState, n: nat) {
    && Stocked(w, st, w0.clock, |st.nodes|)
    && n <= |st.nodes| && forall k: nat | k < n :: Up(w, st.nodes[k].id)
  }

  lemma ReadyHalfUp(w0: World, w: World, cfg: ClusterConfig, st: ClusterState, b: Backing, d: string, o: Outfit)
    requires Ready(w0, w, cfg, st, b, d, o)
    ensures HalfUp(w0, w, st, |EtcdMembers(cfg)|)
  {
    hide InPlace;
    hide APILBConfig;
    hide EtcdMembers;
    hide Stocked;
    hide TLSDir;
    forall k: nat | k < |b.nodes|
      ensures Up(w, st.nodes[k].id)
    {
      SameNode(st.nodes[k], b.nodes[k]);
    }
  }

  lemma ReadyNamed(w0: World, w: World, cfg: ClusterConfig, st: ClusterState, b: Backing, d: string, o: Outfit)
    requires Ready(w0, w, cfg, st, b, d, o)
    ensures ManagesDatastore(cfg) ==> d != ""
  {
    hide Reached;
  }

  /** What create brings up, in order. */
  ghost function PlanOf(request: ClusterConfig, d: string): seq<NodeInfo>
    requires Requested(request)
  {
    Infos(Lineup(request, d), d)
  }

  lemma EveryCreatePoint(p: Provisioner, w0: World, plan: seq<NodeInfo>, c: string)
    requires p.Valid() && p.watch == CreatingFrom(w0, plan, c)
    ensures forall k: nat | k < |p.trace| :: Creating(w0, p.trace[k], plan, c)
  {
    forall k: nat | k < |p.trace|
      ensures Creating(w0, p.trace[k], plan, c)
    {
      p.Then(k);
    }
  }

  /** Create refuses outright, before any effect. */
  ghost predicate Unservable(request: ClusterConfig, d: string) {
    !Servable(request) || (ManagesDatastore(request) && d == "") || (request.caDir != "" && !Absolute(request.caDir))
  }

  /** What a create leaves that refuses because a volume is there: it had no effect exactly when
      there is no datastore to manage and it is the first node's volume, and it wrote files exactly
      when there is a datastore to manage, whose new client keys stay. */
  ghost predicate GuardExact(w0: World, w: World, request: ClusterConfig) {
    && request.nodes != []
    && (w == w0 <==> !ManagesDatastore(request) && Vol(w0, NodeVolumeName(request.name, request.nodes[0].name)).Some?)
    && (w.files == w0.files <==> !ManagesDatastore(request))
    && (ManagesDatastore(request) ==> FreshBundle(w, request.name, w0.clock))
  }

  lemma GuardedExactly(w0: World, w: World, request: ClusterConfig, token: string)
    requires Tidy(w0) && w.root == w0.root && Servable(request) && GuardLeaves(w0, w, Settled(request, token))
    ensures GuardExact(w0, w, request)
  {
    hide NodeVolumeName;
    hide TLSDir;
    if ManagesDatastore(request) {
      assert FileAt(w0, TLSDir(w0.root, request.name, CLIENT)) != FileAt(w, TLSDir(w.root, request.name, CLIENT));
    }
  }

  /** By the time the manifests are looked at, all volumes are made and the managed datastore
      runs. */
  ghost predicate ManifestsLate(w0: World, w: World, request: ClusterConfig, d: string)
    requires Requested(request)
  {
    && Servable(request)
    && ServersIn(request.nodes) <= |request.nodes|
    && HalfUp(w0, w, Draft(request, d, ""), |EtcdMembers(request)|)
  }

  lemma LateForRequest(w0: World, w: World, request: ClusterConfig, token: string, d: string)
    requires Requested(request) && Servable(request)
    requires ServersIn(Settled(request, token).nodes) <= |Settled(request, token).nodes|
    requires HalfUp(w0, w, Draft(Settled(request, token), d, ""), |EtcdMembers(Settled(request, token))|)
    ensures ManifestsLate(w0, w, request, d)
  {
    hide Requested;
    hide Servable;
    hide VolumeOf;
    hide EtcdEndpoint;
    hide EtcdName;
    SettledRequest(request, token, d);
    assert EtcdMembers(Settled(request, token)) == EtcdMembers(request);
  }

  lemma LateDiffers(w0: World, w: World, request: ClusterConfig, d: string)
    requires Tidy(w0) && Requested(request) && ManifestsLate(w0, w, request, d)
    ensures w != w0
  {
    hide EtcdMembers;
    hide ServerName;
    hide AgentName;
    hide NodeVolumeName;
    var st := Draft(request, d, "");
    var first := FirstServerAt(request, d);
    assert VolumeOf(st.clusterName, st.nodes[first].role, st.nodes[first].name).Some?;
  }

  lemma FirstServerAt(request: ClusterConfig, d: string) returns (k: nat)
    requires Requested(request) && Servable(request)
    ensures k < |Draft(request, d, "").nodes| && Draft(request, d, "").nodes[k].role == Server
  {
    hide EtcdMembers;
    hide LBNodes;
    hide ServerName;
    hide AgentName;
    k := |EtcdMembers(request)|;
    assert Lineup(request, d)[k] == request.nodes[0];
  }

  /** The volumes of the lineup that were there before. */
  ghost predicate StaleVolumes(w0: World, request: ClusterConfig, d: string)
    requires Requested(request)
  {
    exists k: nat :: k < |PlanOf(request, d)| && StaleAt(w0, request, d, k)
  }

  ghost predicate StaleAt(w0: World, request: ClusterConfig, d: string, k: nat)
    requires Requested(request) && k < |PlanOf(request, d)|
  {
    var n := PlanOf(request, d)[k];
    VolumeOf(request.name, n.role, n.name).Some? && Vol(w0, VolumeOf(request.name, n.role, n.name).value).Some?
  }

  /** A cluster that was created was created on volumes that were not there. */
  lemma CreatedAfresh(w0: World, w: World, request: ClusterConfig, st: ClusterState, d: string)
    requires Tidy(w0) && Requested(request) && Creating(w0, w, PlanOf(request, d), request.name) && Created(w0, w, request, st, d)
    ensures !StaleVolumes(w0, request, d)
  {
    hide Shape;
    hide Delivered;
    hide Told;
    hide DistinctIPs;
    hide Faithful;
    hide Balanced;
    hide Requested;
    hide Servable;
    hide Lineup;
    hide Closed;
    hide QuorumFirst;
    hide OnRecord;
    hide FreshMounts;
    hide EtcdVolumeName;
    hide NodeVolumeName;
    forall k: nat | k < |PlanOf(request, d)|
      ensures !StaleAt(w0, request, d, k)
    {
      SameNode(PlanOf(request, d)[k], st.nodes[k]);
    }
  }

  /** Create. */
  method Create(p: Provisioner, host: Host, request: ClusterConfig) returns (r: Result<ClusterState>)
    requires Pathed(host) && Tidy(p.world) && Lawful(p.world, request.name, p.domain) && Requested(request)
    modifies p
    ensures p.Valid() && p.scope == request.name && p.origin == old(p.world)
    ensures forall k: nat | k < |p.trace| :: Creating(old(p.world), p.trace[k], PlanOf(request, p.domain), request.name)
    ensures Unservable(request, p.domain) || !Bundled(host, request.caDir) ==> r.Err? && p.world == old(p.world)
    ensures !Resolvable(host, request.manifests) ==> r.Err?
    ensures r.Ok? ==> Created(old(p.world), p.world, request, r.value, p.domain) && OutfitAsked(host, p.world, r.value, request)
    ensures StaleVolumes(old(p.world), request, p.domain) ==> r.Err?
    ensures r.Err? && r.error.StaleVolume? ==> GuardExact(old(p.world), p.world, request)
    ensures r.Err? && r.error.BadManifest? ==> ManifestsLate(old(p.world), p.world, request, p.domain) && p.world != old(p.world)
  {
    hide *;
    ghost var w0, plan := p.world, PlanOf(request, p.domain);
    CreatingStarts(w0, plan, request.name);
    p.Begin(request.name, CreatingFrom(w0, plan, request.name));
    r := TryCreate(p, host, request, w0);
    EveryCreatePoint(p, w0, plan, request.name);
    if r.Ok? {
      LastPoint(p, w0, plan, request.name);
      CreatedAfresh(w0, p.world, request, r.value, p.domain);
    } else if r.error.BadManifest? {
      LateDiffers(w0, p.world, request, p.domain);
    }
  }

  lemma LastPoint(p: Provisioner, w0: World, plan: seq<NodeInfo>, c: string)
    requires p.Valid() && p.watch == CreatingFrom(w0, plan, c)
    ensures Creating(w0, p.world, plan, c)
  {
    p.Now();
  }

  method TryCreate(p: Provisioner, host: Host, request: ClusterConfig, ghost w0: World) returns (r: Result<ClusterState>)
    requires Pathed(host) && p.Valid() && p.world == w0 == p.origin && Requested(request) && p.scope == request.name
    requires p.watch == CreatingFrom(w0, PlanOf(request, p.domain), request.name)
    modifies p`world, p`trace
    ensures p.Valid()
    ensures Unservable(request, p.domain) || !Bundled(host, request.caDir) ==> r.Err? && p.world == w0
    ensures !Resolvable(host, request.manifests) ==> r.Err?
    ensures r.Ok? ==> Created(w0, p.world, request, r.value, p.domain) && OutfitAsked(host, p.world, r.value, request)
    ensures r.Err? && r.error.StaleVolume? ==> GuardExact(w0, p.world, request)
    ensures r.Err? && r.error.BadManifest? ==> ManifestsLate(w0, p.world, request, p.domain)
  {
    hide *;
    p.Now();
    var valid := ValidateClusterConfig(host, request);
    UnservableParts(host, request, p.domain);
    if valid.Fail? {
      return Err(valid.error);
    }
    var generated: string := *;
    var token := if request.token == "" then generated else request.token;
    var cfg := Settled(request, token);
    MayBegin(p, request, token, w0);
    var checked := CheckHost(p.domain);
    if checked.Fail? {
      return Err(checked.error);
    }
    r := BringUp(p, host, cfg, request, Draft(cfg, p.domain, ""), w0);
    if r.Err? && r.error.StaleVolume? {
      StillRooted(p);
      GuardedExactly(w0, p.world, request, token);
    } else if r.Err? && r.error.BadManifest? {
      LateForRequest(w0, p.world, request, token, p.domain);
    }
  }

  lemma UnservableParts(host: Host, request: ClusterConfig, d: string)
    ensures Bundled(host, request.caDir) && Servable(request) && Unservable(request, d) ==> ManagesDatastore(request) && d == ""
  {
    hide Servable;
  }

  lemma StillRooted(p: Provisioner)
    requires p.Valid()
    ensures p.world.root == p.origin.root
  {
    p.Now();
  }

  lemma MayBegin(p: Provisioner, request: ClusterConfig, token: string, w0: World)
    requires Requested(request) && Servable(request) && p.watch == CreatingFrom(w0, PlanOf(request, p.domain), request.name)
    ensures
      var cfg := Settled(request, token);
      && ServersIn(cfg.nodes) <= |cfg.nodes|
      && var st := Draft(cfg, p.domain, "");
      && p.watch == CreatingFrom(w0, st.nodes, st.clusterName) && cfg.name == request.name && cfg.manifests == request.manifests && Drafted(cfg, st, p.domain)
      && Servable(cfg) && cfg == Settled(request, cfg.token) && cfg.token == token
      && ManagesDatastore(cfg) == ManagesDatastore(request)
  {
    hide Requested;
    hide Servable;
    hide Draft;
    hide Drafted;
    hide Infos;
    hide Lineup;
    SettledRequest(request, token, p.domain);
    DraftAt(Settled(request, token), p.domain, "");
  }

  // ---------------------------------------------------------------------------------------
  // What clients find
  // ---------------------------------------------------------------------------------------

  /** The blobs of a kubeconfig hold no server address. */
  ghost predicate CleanBlobs(c: Kubeconfig.Creds) {
    forall blob | blob in [c.caData, c.certData, c.keyData] :: !Kubeconfig.Contains(blob, Kubeconfig.LOOPBACK)
  }

  lemma DeliveredReads(w: World, c: string, url: string, raw: string, creds: Kubeconfig.Creds)
    requires Delivered(w, c, url) && Kubeconfig.PlainEndpoint(url) && FileAt(w, K3sConfigPath(w.root, c)) == Some(Page(raw))
    requires Kubeconfig.Parsed(raw) == Some(creds) && creds.server == Kubeconfig.LOOPBACK && CleanBlobs(creds)
    ensures FileAt(w, KubeconfigPath(w.root, c)) == Some(Page(Kubeconfig.Rewrite(raw, url)))
    ensures Kubeconfig.Parsed(Kubeconfig.Rewrite(raw, url)) == Some(creds.(server := url))
  {
    hide Kubeconfig.PlainEndpoint;
    hide Kubeconfig.Contains;
    hide Kubeconfig.Parsed;
    hide Kubeconfig.Rewrite;
    Kubeconfig.DeliveredCreds(raw, url, creds);
  }

  /** What is read from the operator's kubeconfig of a created cluster is what k3s put into its
      own, with the recorded API endpoint for a server, as long as neither the domain nor, without
      one, the server's address holds white space. */
  lemma CreatedKubeconfig(w0: World, w: World, request: ClusterConfig, st: ClusterState, d: string, raw: string, creds: Kubeconfig.Creds)
    requires Created(w0, w, request, st, d)
    requires Kubeconfig.NoBlanks(if d != "" then d else WithRole(st.nodes, Server)[0].ips[0])
    requires FileAt(w, K3sConfigPath(w.root, request.name)) == Some(Page(raw))
    requires Kubeconfig.Parsed(raw) == Some(creds) && creds.server == Kubeconfig.LOOPBACK && CleanBlobs(creds)
    ensures exists text ::
      && FileAt(w, KubeconfigPath(w.root, request.name)) == Some(Page(text))
      && Kubeconfig.Parsed(text) == Some(creds.(server := st.serverURL))
  {
    hide Delivered;
    hide Sound;
    hide Told;
    hide DistinctIPs;
    hide Lineup;
    hide Infos;
    hide Servable;
    hide Kubeconfig.PlainEndpoint;
    hide Kubeconfig.NoBlanks;
    hide Kubeconfig.Parsed;
    hide Kubeconfig.Rewrite;
    hide CleanBlobs;
    hide ClusterAPIEndpoint;
    hide K3sConfigPath;
    hide KubeconfigPath;
    var first := WithRole(st.nodes, Server)[0];
    ShapeClean(st, request.name, d, first);
    Kubeconfig.EndpointPlain(request, first.name, first.ips[0], d);
    DeliveredReads(w, request.name, st.serverURL, raw, creds);
  }

  lemma ShapeClean(st: ClusterState, c: string, d: string, n: NodeInfo)
    requires Shape(st, c, d)
    ensures CleanText(c)
    ensures n in st.nodes || n in WithRole(st.nodes, Server) ==>
      n in st.nodes && CleanText(n.name) && n.name != "" && n.id == NodeFQDN(n.name, d)
  {
    hide Quorum;
    hide Fronted;
    hide Distinct;
    if n in st.nodes || n in WithRole(st.nodes, Server) {
      assert n in st.nodes && Numbered(n, c, d);
      NumberedOwner(n, c, d);
      var i: nat :| n.name == NodeName(c, n.role, i);
    }
  }

  /** With resolvers of its own, every node of a created cluster resolves the name of every node,
      bare or under the domain, to the address its container has. */
  lemma CreatedNames(w0: World, w: World, request: ClusterConfig, st: ClusterState, d: string, i: nat, k: nat)
    requires Created(w0, w, request, st, d) && request.dnsServers != [] && d != "" && i < |st.nodes| && k < |st.nodes|
    requires Solid(d) && forall n | n in st.nodes :: n.ips != [] ==> Solid(n.ips[0])
    ensures At(w, st.nodes[k].id).Some?
    ensures exists text ::
      && Did(w, st.nodes[i].id, WriteHosts(text))
      && Hosts.Resolve(text, st.nodes[k].name) == Hosts.Resolve(text, st.nodes[k].id) == Some(At(w, st.nodes[k].id).value.addr)
  {
    hide Delivered;
    hide Faithful;
    hide Balanced;
    hide Stocked;
    hide DistinctIPs;
    hide Lineup;
    hide Infos;
    hide Servable;
    hide Quorum;
    hide Fronted;
    hide AllNumbered;
    hide ClusterAPIEndpoint;
    hide Solid;
    hide Hosts.Resolve;
    hide Hosts.Entries;
    var text := Hosts.Entries(st.nodes, d);
    assert st.nodes[k] in st.nodes;
    forall n | n in st.nodes
      ensures Hosts.Listed(n, d)
    {
      ShapeClean(st, request.name, d, n);
    }
    Hosts.EntriesResolve(st.nodes, d, k);
    assert Did(w, st.nodes[i].id, WriteHosts(text));
  }

  // ---------------------------------------------------------------------------------------
  // Refused creates
  // ---------------------------------------------------------------------------------------

  /** A host on which one volume of cluster "a" was left behind. */
  function Leftover(v: string): World {
    World("/s", map[], map[v := Volume(Some("a"), 0, Blank)], map[], map[], map[], 1, (t: nat) => "")
  }

  /** The command line's request for so many servers and agents. */
  function Asked(servers: nat, agents: nat): (request: ClusterConfig)
    ensures Requested(request) && request.name == "a"
  {
    var spec := NodeSpec("a", servers, agents, 1, 1, 1, 1, [], [], []);
    var inputs := Inputs("a", "", "", "", "", servers, 0, "", 0, [], [], [], "");
    RequestsAreRequested(spec, inputs);
    BuildClusterConfig(inputs, Servers(spec, servers) + Agents(spec, agents))
  }

  lemma AskedFor(servers: nat, agents: nat)
    requires servers > 0
    ensures
      var request := Asked(servers, agents);
      && ServersIn(request.nodes) == servers && |request.nodes| == servers + agents && request.nodes[0].name == ServerName("a", 1)
      && (forall k: nat | servers <= k < servers + agents :: request.nodes[k] == request.nodes[k].(role := Agent, name := AgentName("a", k - servers + 1)))
      && (ManagesDatastore(request) <==> servers > 1) && Servable(request) && (servers > 1 ==> |EtcdMembers(request)| == 3)
      && (servers == 1 ==> EtcdMembers(request) == [])
  {
    hide ServerName;
    hide AgentName;
    hide EtcdName;
    var spec := NodeSpec("a", servers, agents, 1, 1, 1, 1, [], [], []);
    CountServers(Servers(spec, servers), Agents(spec, agents));
  }

  /** The volume of one of its nodes. */
  function VolumeName(role: Role, i: nat): (v: string)
    requires !role.LB?
    ensures VolumeOf("a", role, NodeName("a", role, i)) == Some(v) && OwnedVolume(v) == Node("a", role)
  {
    OwnedNodeVolume("a", role, i);
    VolumeOf("a", role, NodeName("a", role, i)).value
  }

  lemma LeftoverLawful(role: Role, i: nat, d: string)
    requires !role.LB?
    ensures Tidy(Leftover(VolumeName(role, i))) && Lawful(Leftover(VolumeName(role, i)), "a", d)
  {
    hide NodeName;
    hide OwnedVolume;
    hide Shape;
    hide VolumeOf;
    var v := VolumeName(role, i);
    var w := Leftover(v);
    assert forall x :: Vol(w, x).Some? ==> x == v && Vol(w, x).value == Volume(Some("a"), 0, Blank);
    assert forall x :: At(w, x) == None;
    assert forall x :: FileAt(w, x) == None;
  }

  /** When the volume of some node of the lineup was left behind, a create is within its contract
      and cannot succeed; refused by the guard, it had no effect exactly when it is the volume of
      the only server, and wrote no files exactly when there is only one server. */
  lemma LeftoverRefused(servers: nat, agents: nat, d: string, k: nat, role: Role, i: nat)
    requires servers > 0 && k < |PlanOf(Asked(servers, agents), d)| && !role.LB?
    requires PlanOf(Asked(servers, agents), d)[k].role == role && PlanOf(Asked(servers, agents), d)[k].name == NodeName("a", role, i)
    ensures
      var w, request := Leftover(VolumeName(role, i)), Asked(servers, agents);
      && Tidy(w) && Lawful(w, "a", d) && StaleVolumes(w, request, d)
      && forall w' :: GuardExact(w, w', request) ==>
           && (w' == w <==> servers == 1 && role == Server && i == 1)
           && (w'.files == w.files <==> servers == 1)
  {
    hide NodeName;
    hide ServerName;
    hide NodeVolumeName;
    hide EtcdVolumeName;
    hide OwnedVolume;
    hide Requested;
    hide PlanOf;
    hide Tidy;
    hide Lawful;
    hide Asked;
    var w, request := Leftover(VolumeName(role, i)), Asked(servers, agents);
    AskedFor(servers, agents);
    LeftoverLawful(role, i, d);
    assert StaleAt(w, request, d, k);
    FirstVolume(role, i);
  }

  lemma FirstVolume(role: Role, i: nat)
    requires !role.LB?
    ensures Vol(Leftover(VolumeName(role, i)), NodeVolumeName("a", ServerName("a", 1))).Some? <==> role == Server && i == 1
  {
    VolumesCollide("a", role, i, "a", Server, 1);
  }

  /** One server and one agent, whose volume is stale: no files are written, but the server's
      volume is left behind. */
  lemma StaleAgent()
    ensures
      var w, request := Leftover(VolumeName(Agent, 1)), Asked(1, 1);
      && Tidy(w) && Lawful(w, "a", "") && StaleVolumes(w, request, "")
      && forall w' :: GuardExact(w, w', request) ==> w' != w && w'.files == w.files
  {
    hide AgentName;
    hide ServerName;
    hide StaleVolumes;
    hide GuardExact;
    hide Asked;
    AskedFor(1, 1);
    LeftoverRefused(1, 1, "", 1, Agent, 1);
  }

  /** Three servers over a managed datastore, whose first member's volume is stale: new keys are
      left behind. */
  lemma StaleMember()
    ensures
      var w, request := Leftover(VolumeName(Datastore, 1)), Asked(3, 0);
      && Tidy(w) && Lawful(w, "a", "b") && StaleVolumes(w, request, "b")
      && forall w' :: GuardExact(w, w', request) ==> w' != w && w'.files != w.files
  {
    hide EtcdName;
    hide ServerName;
    hide StaleVolumes;
    hide GuardExact;
    hide Asked;
    AskedFor(3, 0);
    LeftoverRefused(3, 0, "b", 0, Datastore, 1);
  }

  /** One server, whose volume is stale: nothing is left behind. */
  lemma StaleServer()
    ensures
      var w, request := Leftover(VolumeName(Server, 1)), Asked(1, 0);
      && Tidy(w) && Lawful(w, "a", "") && StaleVolumes(w, request, "")
      && forall w' :: GuardExact(w, w', request) ==> w' == w
  {
    hide ServerName;
    hide StaleVolumes;
    hide GuardExact;
    hide Asked;
    AskedFor(1, 0);
    LeftoverRefused(1, 0, "", 0, Server, 1);
  }

  // ---------------------------------------------------------------------------------------
  // Recreating nodes of a created cluster
  // ---------------------------------------------------------------------------------------

  lemma BundleFound(w0: World, w: World, c: string, plan: seq<NodeInfo>, t: nat)
    requires FreshBundle(w0, c, t) && Creating(w0, w, plan, c)
    ensures ClientDir(w, c) != ""
  {
    hide Closed;
    hide QuorumFirst;
    hide OnRecord;
    hide FreshMounts;
    assert TLSDir(w.root, c, CLIENT) != "" by {
      assert |TLSDir(w.root, c, CLIENT)| > 0;
    }
  }

  /** The record a create leaves is of what it launched. */
  lemma CreatedFrom(w0: World, w: World, request: ClusterConfig, st: ClusterState, d: string, node: NodeConfig, manifests: seq<string>)
    requires Created(w0, w, request, st, d) && !ManagesDatastore(request)
    ensures
      var run := RunConfig(Settled(request, st.token), Backing([], request.datastoreEndpoint, ""), manifests);
      RecordedFrom(st, run, node, if node.role.Agent? then st.serverURL else "")
  {
    hide Sound;
    hide Shape;
    hide Delivered;
    hide Told;
    hide DistinctIPs;
    hide Lineup;
    hide Infos;
    hide Servable;
    hide ClusterAPIEndpoint;
    hide WithRole;
  }

  /** A create over a managed datastore is refused by the guard, and its client keys stay. Then a
      cluster of that name is created over an operator's own datastore. No recreation of one of its
      servers, as in an upgrade or a token rotation, issues the vector it was launched with. */
  lemma RecreatedOnLeftoverKeys(w0: World, w1: World, refused: ClusterConfig, w2: World, request: ClusterConfig, st: ClusterState, d: string,
                                node: NodeConfig, manifests: seq<string>, kubeDir: string, addr: Addr)
    requires GuardExact(w0, w1, refused) && ManagesDatastore(refused) && refused.name == request.name
    requires Requested(request) && !ManagesDatastore(request) && node in request.nodes && node.role.Server?
    requires Creating(w1, w2, PlanOf(request, d), request.name) && Created(w1, w2, request, st, d)
    ensures
      var run := RunConfig(Settled(request, st.token), Backing([], request.datastoreEndpoint, ""), manifests);
      RecreatedArgs(st, InfoOf(node, d, addr), ClientDir(w2, request.name), d) != NodeRunArgs(run, node, "", d, kubeDir)
  {
    hide *;
    var run := RunConfig(Settled(request, st.token), Backing([], request.datastoreEndpoint, ""), manifests);
    KeysStay(w0, w1, refused);
    BundleFound(w1, w2, request.name, PlanOf(request, d), w0.clock);
    CreatedFrom(w1, w2, request, st, d, node, manifests);
    NoBundle(request, st.token, manifests);
    RecreateFidelity(run, node, "", d, addr, kubeDir, st, ClientDir(w2, request.name));
  }

  lemma KeysStay(w0: World, w: World, request: ClusterConfig)
    requires GuardExact(w0, w, request) && ManagesDatastore(request)
    ensures FreshBundle(w, request.name, w0.clock)
  {
  }

  lemma NoBundle(request: ClusterConfig, token: string, manifests: seq<string>)
    ensures RunConfig(Settled(request, token), Backing([], request.datastoreEndpoint, ""), manifests).datastoreTLSDir == ""
  {
  }
}
