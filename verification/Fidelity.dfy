/** What a saved record claims of the containers it names, and what follows for clients
    (provider/apple/create.go, day2.go, node.go). */
module Fidelity {
  import opened Types
  import opened Names
  import opened Ordering
  import opened Recipes
  import opened Meaning
  import opened Records
  import opened World

  predicate Managed(st: ClusterState) {
    WithRole(st.nodes, Datastore) != []
  }

  /** Whose TLS bundle a node of a managed cluster mounts. */
  function BundleOf(n: NodeInfo): string {
    if n.role.Datastore? then n.name else CLIENT
  }

  /** The container runs on the present incarnation of its own volume. */
  ghost predicate Mounted(w: World, a: Container, volume: Option<string>) {
    volume.Some? ==> a.volume == volume && Vol(w, volume.value).Some? && a.mount == Some(Vol(w, volume.value).value.born)
  }

  /** The command of a datastore member, over the mesh of all recorded members. */
  function MemberCommand(st: ClusterState, n: NodeInfo, d: string): seq<string> {
    EtcdCommand(st.clusterName, n.name, d, EtcdMesh(st.clusterName, d, |WithRole(st.nodes, Datastore)|))
  }

  /** What the record says the k3s nodes of its cluster have in common. */
  function CommonIn(st: ClusterState): Common {
    Common(ResolvedImage(st.image), st.network, st.token, st.datastoreEndpoint, st.serverURL)
  }

  /** What it says its datastore members have in common. */
  function QuorateIn(st: ClusterState, d: string): Quorate {
    Quorate(st.clusterName, if st.datastoreImage == "" then "quay.io/coreos/etcd:v3.5.16" else st.datastoreImage, st.network,
            EtcdMesh(st.clusterName, d, |WithRole(st.nodes, Datastore)|))
  }

  /** The launch is what the record says of its node n: by its role that node, member or load
      balancer, at its recorded size, with the cluster's settings and, if the datastore is managed,
      the keys it calls for. */
  ghost predicate Suits(l: Launch, n: NodeInfo, st: ClusterState, d: string, root: string) {
    && (n.role.IsK3s() ==> Serves(l, st.clusterName, NodeConfigFromInfo(n), d, CommonIn(st)))
    && (Managed(st) && n.role.Server? ==> KeyedBy(l, NodeConfigFromInfo(n), TLSDir(root, st.clusterName, CLIENT)))
    && (n.role.Datastore? ==> RunsMember(l, n.name, n.id, n.memory, QuorateIn(st, d), TLSDir(root, st.clusterName, n.name)))
    && (n.role.LB? ==> RunsProxy(l, st.network, ConfigDir(root, st.clusterName)))
  }

  /** The node's container exists and is what the record says. */
  ghost predicate InPlace(w: World, n: NodeInfo, st: ClusterState, d: string) {
    && At(w, n.id).Some?
    && var a := At(w, n.id).value;
    && Mounted(w, a, VolumeOf(st.clusterName, n.role, n.name))
    && Suits(a.launch, n, st, d, w.root)
    && (Managed(st) && (n.role.Datastore? || n.role.Server?) ==>
          TLSSource(a.launch.volumes) == Some(TLSDir(w.root, st.clusterName, BundleOf(n))))
    && (n.role.Datastore? ==> a.launch.command == MemberCommand(st, n, d))
    && (n.role.LB? ==> MountedAt(a.launch.volumes, LB_CONFIG_MOUNT) == Some(ConfigDir(w.root, st.clusterName)))
  }

  /** Every recorded node is in place, and a managed cluster has its client bundle on disk. */
  ghost predicate Faithful(w: World, st: ClusterState, d: string) {
    && (forall n | n in st.nodes :: InPlace(w, n, st, d))
    && (Managed(st) ==> FileAt(w, TLSDir(w.root, st.clusterName, CLIENT)).Some?)
  }

  /** The same claims about the same nodes, whatever their addresses. */
  ghost predicate SameClaims(st: ClusterState, st': ClusterState) {
    && Readdressed(st.nodes, st'.nodes)
    && st'.clusterName == st.clusterName && ResolvedImage(st'.image) == ResolvedImage(st.image) && st'.token == st.token
    && st'.network == st.network && st'.datastoreImage == st.datastoreImage
    && st'.datastoreEndpoint == st.datastoreEndpoint && st'.serverURL == st.serverURL
  }

  /** The same container up to how it runs, on the same volume. */
  ghost predicate SameRole(w0: World, w: World, id: string) {
    At(w, id).Some? == At(w0, id).Some? &&
    (At(w, id).Some? ==>
       var a, a0 := At(w, id).value, At(w0, id).value;
       a.launch == a0.launch && a.volume == a0.volume && a.mount == a0.mount && a.made == a0.made)
  }

  /** The same volume, whatever it holds. */
  ghost predicate SameVolume(w0: World, w: World, v: string) {
    Vol(w, v).Some? == Vol(w0, v).Some? && (Vol(w, v).Some? ==> Vol(w, v).value.born == Vol(w0, v).value.born)
  }

  lemma SameMesh(st: ClusterState, st': ClusterState, n: NodeInfo, n': NodeInfo, d: string)
    requires st.clusterName == st'.clusterName && n.name == n'.name && |WithRole(st'.nodes, Datastore)| == |WithRole(st.nodes, Datastore)|
    ensures MemberCommand(st', n', d) == MemberCommand(st, n, d)
  {
  }

  lemma InPlaceKept(w0: World, w: World, st: ClusterState, st': ClusterState, n: NodeInfo, n': NodeInfo, d: string)
    requires InPlace(w0, n, st, d) && SameClaims(st, st') && Bare(n) == Bare(n') && w.root == w0.root
    requires SameRole(w0, w, n.id)
    requires VolumeOf(st.clusterName, n.role, n.name).Some? ==> SameVolume(w0, w, VolumeOf(st.clusterName, n.role, n.name).value)
    ensures InPlace(w, n', st', d)
  {
    hide Suits;
    hide EtcdMesh;
    hide EtcdCommand;
    SameNode(n, n');
    ReaddressedRole(st.nodes, st'.nodes, Datastore);
    SuitsSame(At(w0, n.id).value.launch, n, n', st, st', d, w.root);
  }

  /** A node beside others that come or go. */
  lemma InPlaceBeside(w: World, w': World, st: ClusterState, st': ClusterState, n: NodeInfo, d: string)
    requires InPlace(w, n, st, d) && w'.root == w.root && At(w', n.id) == At(w, n.id)
    requires VolumeOf(st.clusterName, n.role, n.name).Some? ==> SameVolume(w, w', VolumeOf(st.clusterName, n.role, n.name).value)
    requires st' == st.(nodes := st'.nodes) && |WithRole(st'.nodes, Datastore)| == |WithRole(st.nodes, Datastore)|
    ensures InPlace(w', n, st', d)
  {
    hide Suits;
    hide EtcdMesh;
    hide EtcdCommand;
    hide TLSSource;
    hide TLSDir;
    hide MountedAt;
    SuitsSame(At(w, n.id).value.launch, n, n, st, st', d, w.root);
  }

  /** The same settings, size and number of members ask for the same launch. */
  lemma SuitsSame(l: Launch, n: NodeInfo, n': NodeInfo, st: ClusterState, st': ClusterState, d: string, root: string)
    requires Suits(l, n, st, d, root) && Bare(n) == Bare(n') && |WithRole(st'.nodes, Datastore)| == |WithRole(st.nodes, Datastore)|
    requires n.role.IsK3s() ==> CommonIn(st') == CommonIn(st)
    requires st'.clusterName == st.clusterName && st'.network == st.network && st'.datastoreImage == st.datastoreImage
    ensures Suits(l, n', st', d, root)
  {
    hide Serves;
    hide KeyedBy;
    hide RunsMember;
    hide RunsProxy;
    hide TLSDir;
    hide ConfigDir;
    hide EtcdMesh;
    SameNode(n, n');
  }

  /** New addresses and a restart keep a record faithful. */
  lemma FaithfulKept(w0: World, w: World, st: ClusterState, st': ClusterState, d: string)
    requires Faithful(w0, st, d) && SameClaims(st, st') && w.root == w0.root
    requires forall n | n in st.nodes :: SameRole(w0, w, n.id)
    requires forall n | n in st.nodes ::
               VolumeOf(st.clusterName, n.role, n.name).Some? ==> SameVolume(w0, w, VolumeOf(st.clusterName, n.role, n.name).value)
    requires Managed(st) ==> FileAt(w, TLSDir(w.root, st.clusterName, CLIENT)).Some?
    ensures Faithful(w, st', d)
  {
    ReaddressedRole(st.nodes, st'.nodes, Datastore);
    forall n' | n' in st'.nodes
      ensures InPlace(w, n', st', d)
    {
      var k :| 0 <= k < |st'.nodes| && st'.nodes[k] == n';
      var n := st.nodes[k];
      assert n in st.nodes;
      InPlaceKept(w0, w, st, st', n, n', d);
    }
  }

  /** The host of a node's or load balancer's URL. */
  ghost predicate Reaches(st: ClusterState, host: string) {
    st.serverURL == HttpsURL(host, API_PORT)
  }

  /** With names, the recorded API endpoint names a host that is a certificate name of every
      server the record lists: the servers are all that host can lead to. */
  lemma EndpointVerifies(w: World, st: ClusterState, c: string, d: string)
    requires Shape(st, c, d) && Faithful(w, st, d) && d != ""
    ensures
      var host := if WithRole(st.nodes, LB) != [] then ClusterAPIFQDN(c, d) else NodeFQDN(WithRole(st.nodes, Server)[0].name, d);
      && Reaches(st, host)
      && forall s | s in st.nodes && s.role.Server? :: HasSAN(At(w, s.id).value.launch.command, host)
  {
    forall s | s in st.nodes && s.role.Server?
      ensures HasSAN(At(w, s.id).value.launch.command,
                     if WithRole(st.nodes, LB) != [] then ClusterAPIFQDN(c, d) else NodeFQDN(WithRole(st.nodes, Server)[0].name, d))
    {
      ServerVerifies(w, st, c, d, s);
    }
  }

  lemma ServerVerifies(w: World, st: ClusterState, c: string, d: string, s: NodeInfo)
    requires Shape(st, c, d) && Faithful(w, st, d) && d != "" && s in st.nodes && s.role.Server?
    ensures At(w, s.id).Some?
    ensures HasSAN(At(w, s.id).value.launch.command,
                   if WithRole(st.nodes, LB) != [] then ClusterAPIFQDN(c, d) else NodeFQDN(WithRole(st.nodes, Server)[0].name, d))
  {
    hide HasSAN;
    hide HttpsURL;
    hide ClusterAPIFQDN;
    hide NodeFQDN;
    hide Quorum;
    hide AllNumbered;
    hide Distinct;
    assert InPlace(w, s, st, d);
    assert s in WithRole(st.nodes, Server);
  }

  /** Every member advertises the URLs the record names it by, to clients in the endpoint and to
      its peers in the mesh, under its own container name, on the ports it listens on. */
  lemma MembersAdvertise(w: World, st: ClusterState, c: string, d: string, k: nat)
    requires Shape(st, c, d) && Faithful(w, st, d) && k < |WithRole(st.nodes, Datastore)|
    ensures
      var members := WithRole(st.nodes, Datastore);
      && At(w, members[k].id).Some?
      && var command := At(w, members[k].id).value.launch.command;
      && st.datastoreEndpoint == Join(EtcdClientURLs(c, d, |members|), ",")
      && Setting(command, "--initial-cluster") == Some(Join(EtcdPeers(c, d, |members|), ","))
      && Setting(command, "--advertise-client-urls") == Some(EtcdClientURLs(c, d, |members|)[k])
      && (exists peer :: Setting(command, "--initial-advertise-peer-urls") == Some(peer) && EtcdPeers(c, d, |members|)[k] == members[k].name + "=" + peer)
      && Setting(command, "--listen-client-urls") == Some("https://0.0.0.0:" + ETCD_CLIENT_PORT)
      && Setting(command, "--listen-peer-urls") == Some("https://0.0.0.0:" + ETCD_PEER_PORT)
  {
    hide Setting;
    hide HttpsURL;
    hide EtcdPeers;
    hide EtcdClientURLs;
    hide Join;
    hide Secured;
    hide DataOnVolume;
    hide Mounted;
    hide NodeFQDN;
    hide AllNumbered;
    hide Fronted;
    var members := WithRole(st.nodes, Datastore);
    RecordedMesh(st, c, d);
    ListenURLs();
    assert members[k] in members && InPlace(w, members[k], st, d);
    assert Setting(At(w, members[k].id).value.launch.command, "--initial-advertise-peer-urls") == Some(HttpsURL(members[k].id, ETCD_PEER_PORT));
  }
}
