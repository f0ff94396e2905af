/** The recorded state of a cluster (provider/apple/types.go, day2.go, node_ops.go): the shape
    every saved record has, and the edits operations make to it. */
module Records {
  import opened Types
  import opened Names
  import opened Ordering
  import opened Recipes

  // ---------------------------------------------------------------------------------------
  // Shape
  // ---------------------------------------------------------------------------------------

  /** A node named by its cluster, role and number, with the container ID of that name. */
  ghost predicate Numbered(n: NodeInfo, c: string, d: string) {
    && n.id == NodeFQDN(n.name, d)
    && (exists i: nat :: n.name == NodeName(c, n.role, i))
    && (!n.role.IsK3s() ==> n.nanoCPUs == 0 && n.labels == [] && n.extraArgs == [])
  }

  ghost predicate AllNumbered(nodes: seq<NodeInfo>, c: string, d: string) {
    forall n | n in nodes :: Numbered(n, c, d)
  }

  ghost predicate Distinct(nodes: seq<NodeInfo>) {
    forall i, j | 0 <= i < j < |nodes| :: nodes[i].name != nodes[j].name
  }

  /** members are etcd-1, etcd-2, ... in order. */
  ghost predicate InMeshOrder(members: seq<NodeInfo>, c: string) {
    forall k | 0 <= k < |members| :: members[k].name == EtcdName(c, k + 1)
  }

  /** The managed datastore, if there is one, is an odd quorum of at least three, and it is
      what the servers are pointed at. */
  ghost predicate Quorum(members: seq<NodeInfo>, endpoint: string, c: string, d: string) {
    && InMeshOrder(members, c)
    && (members != [] ==> |members| >= 3 && |members| % 2 == 1 && d != "" && endpoint == EtcdEndpoint(c, d, |members|))
  }

  /** There is a server, several only over a shared datastore, and the recorded API endpoint
      is the load balancer's name, or with names but no load balancer the only server's. */
  ghost predicate Fronted(servers: seq<NodeInfo>, lbs: seq<NodeInfo>, endpoint: string, url: string, c: string, d: string) {
    && |servers| >= 1
    && |lbs| <= 1
    && (|servers| > 1 ==> endpoint != "")
    && (lbs != [] ==> d != "" && endpoint != "" && url == HttpsURL(ClusterAPIFQDN(c, d), API_PORT))
    && (lbs == [] && d != "" ==> |servers| == 1 && url == HttpsURL(NodeFQDN(servers[0].name, d), API_PORT))
  }

  predicate UsableImage(image: string) {
    image == "" || PlainImage(image)
  }

  /** What every record of cluster c under domain d satisfies. */
  ghost predicate Shape(st: ClusterState, c: string, d: string) {
    var shaped :=
      && ValidName(c)
      && st.clusterName == c
      && AllNumbered(st.nodes, c, d)
      && Distinct(st.nodes)
      && Quorum(WithRole(st.nodes, Datastore), st.datastoreEndpoint, c, d)
      && Fronted(WithRole(st.nodes, Server), WithRole(st.nodes, LB), st.datastoreEndpoint, st.serverURL, c, d)
      && UsableImage(st.image) && UsableImage(st.datastoreImage) && UsableImage(st.previousImage);
    shaped
  }

  lemma ShapeNamed(st: ClusterState, c: string, d: string)
    requires Shape(st, c, d)
    ensures st.clusterName == c
  {
  }

  lemma ResolvedRuns(image: string)
    requires UsableImage(image)
    ensures PlainImage(ResolvedImage(image))
  {
    assert DEFAULT_K3S_IMAGE[0] == 'r';
  }

  lemma NumberedOwner(n: NodeInfo, c: string, d: string)
    requires CleanText(c) && Numbered(n, c, d)
    ensures Owned(n.id) == Node(c, n.role)
    ensures VolumeOf(c, n.role, n.name).Some? ==> OwnedVolume(VolumeOf(c, n.role, n.name).value) == Node(c, n.role)
    ensures CleanText(n.name) && '.' !in n.name
  {
    var i: nat :| n.name == NodeName(c, n.role, i);
    OwnedNode(c, n.role, i, d);
    OwnedNodeVolume(c, n.role, i);
    CleanNames(c, n.role, i);
  }

  lemma NumberedHelpers(n: NodeInfo, c: string, d: string)
    requires CleanText(c) && Numbered(n, c, d)
    ensures Owned(RestoreHelper(n.name)) == Helper(c)
    ensures Owned(CertRotateHelper(n.name)) == Helper(c)
  {
    var i: nat :| n.name == NodeName(c, n.role, i);
    OwnedNodeHelpers(c, n.role, i);
  }

  /** Recorded IDs and volumes are unique with the names. */
  lemma DistinctIds(nodes: seq<NodeInfo>, c: string, d: string, i: nat, j: nat)
    requires CleanText(c) && AllNumbered(nodes, c, d) && Distinct(nodes) && i < |nodes| && j < |nodes| && i != j
    ensures nodes[i].id != nodes[j].id
    ensures nodes[i].role == nodes[j].role && !nodes[i].role.LB? ==>
              VolumeOf(c, nodes[i].role, nodes[i].name) != VolumeOf(c, nodes[j].role, nodes[j].name)
  {
    var a, b := nodes[i], nodes[j];
    assert a.name != b.name;
    NumberedOwner(a, c, d);
    NumberedOwner(b, c, d);
    if a.id == b.id {
      FQDNInjective(a.name, b.name, d);
    }
    if a.role == b.role && !a.role.LB? && VolumeOf(c, a.role, a.name) == VolumeOf(c, b.role, b.name) {
      VolumeNamesNode(c, a.role, a.name, b.name);
    }
  }

  // ---------------------------------------------------------------------------------------
  // Edits
  // ---------------------------------------------------------------------------------------

  /** replaceNodeInState. */
  function ReplaceNode(nodes: seq<NodeInfo>, info: NodeInfo): (r: seq<NodeInfo>)
    ensures |r| == |nodes|
  {
    if nodes == [] then []
    else if nodes[0].id == info.id then [info] + nodes[1..]
    else [nodes[0]] + ReplaceNode(nodes[1..], info)
  }

  method ReplaceNodeInState(nodes: seq<NodeInfo>, info: NodeInfo) returns (r: seq<NodeInfo>, matched: bool)
    ensures r == ReplaceNode(nodes, info)
    ensures matched <==> exists n :: n in nodes && n.id == info.id
  {
    for i := 0 to |nodes|
      invariant forall k | 0 <= k < i :: nodes[k].id != info.id
      invariant nodes[..i] + ReplaceNode(nodes[i..], info) == ReplaceNode(nodes, info)
    {
      if nodes[i].id == info.id {
        assert ReplaceNode(nodes[i..], info) == [info] + nodes[i..][1..];
        return nodes[i := info], true;
      }
      assert nodes[i..] == [nodes[i]] + nodes[i + 1..];
    }
    return nodes, false;
  }

  function Bare(n: NodeInfo): NodeInfo { n.(ips := []) }

  /** The same nodes up to their addresses. */
  ghost predicate Readdressed(a: seq<NodeInfo>, b: seq<NodeInfo>) {
    |a| == |b| && forall k | 0 <= k < |a| :: Bare(a[k]) == Bare(b[k])
  }

  lemma {:induction false} ReplaceReaddresses(nodes: seq<NodeInfo>, n: NodeInfo, ips: seq<Addr>)
    requires forall m | m in nodes && m.id == n.id :: Bare(m) == Bare(n)
    ensures Readdressed(nodes, ReplaceNode(nodes, n.(ips := ips)))
  {
    if nodes != [] && nodes[0].id != n.id {
      ReplaceReaddresses(nodes[1..], n, ips);
    }
  }

  lemma ReaddressedTrans(a: seq<NodeInfo>, b: seq<NodeInfo>, c: seq<NodeInfo>)
    requires Readdressed(a, b) && Readdressed(b, c)
    ensures Readdressed(a, c)
  {
  }

  lemma ReaddressedTail(a: seq<NodeInfo>, b: seq<NodeInfo>)
    requires Readdressed(a, b) && a != []
    ensures Readdressed(a[1..], b[1..]) && Bare(a[0]) == Bare(b[0])
  {
  }

  lemma ReaddressedCons(x: NodeInfo, y: NodeInfo, a: seq<NodeInfo>, b: seq<NodeInfo>)
    requires Readdressed(a, b) && Bare(x) == Bare(y)
    ensures Readdressed([x] + a, [y] + b)
  {
  }

  lemma {:induction false} ReaddressedRole(a: seq<NodeInfo>, b: seq<NodeInfo>, role: Role)
    requires Readdressed(a, b)
    ensures Readdressed(WithRole(a, role), WithRole(b, role))
  {
    if a != [] {
      ReaddressedTail(a, b);
      ReaddressedRole(a[1..], b[1..], role);
      SameNode(a[0], b[0]);
      ReaddressedCons(a[0], b[0], WithRole(a[1..], role), WithRole(b[1..], role));
    }
  }

  /** The same node up to its address. */
  lemma SameNode(a: NodeInfo, b: NodeInfo)
    requires Bare(a) == Bare(b)
    ensures b == a.(ips := b.ips)
  {
  }

  lemma ReaddressedNumbered(a: seq<NodeInfo>, b: seq<NodeInfo>, c: string, d: string)
    requires Readdressed(a, b) && AllNumbered(a, c, d) && Distinct(a)
    ensures AllNumbered(b, c, d) && Distinct(b)
  {
    forall k | 0 <= k < |b|
      ensures Numbered(b[k], c, d)
      ensures b[k].name == a[k].name
    {
      SameNode(a[k], b[k]);
      assert a[k] in a && Numbered(a[k], c, d);
      var i: nat :| a[k].name == NodeName(c, a[k].role, i);
      assert b[k].name == NodeName(c, b[k].role, i);
    }
  }

  /** New addresses, images or a new token leave a record well shaped. */
  lemma ShapeReaddressed(st: ClusterState, st': ClusterState, c: string, d: string)
    requires Shape(st, c, d) && Readdressed(st.nodes, st'.nodes)
    requires st'.clusterName == c && st'.datastoreEndpoint == st.datastoreEndpoint && st'.serverURL == st.serverURL
    requires UsableImage(st'.image) && UsableImage(st'.datastoreImage) && UsableImage(st'.previousImage)
    ensures Shape(st', c, d)
  {
    ReaddressedNumbered(st.nodes, st'.nodes, c, d);
    ReaddressedRole(st.nodes, st'.nodes, Datastore);
    ReaddressedRole(st.nodes, st'.nodes, Server);
    ReaddressedRole(st.nodes, st'.nodes, LB);
    var ds, ds' := WithRole(st.nodes, Datastore), WithRole(st'.nodes, Datastore);
    forall k | 0 <= k < |ds|
      ensures ds[k].name == ds'[k].name
    {
      SameNode(ds[k], ds'[k]);
    }
    var servers, servers' := WithRole(st.nodes, Server), WithRole(st'.nodes, Server);
    SameNode(servers[0], servers'[0]);
  }

  lemma RolesAfter(nodes: seq<NodeInfo>, n: NodeInfo, role: Role)
    ensures WithRole(nodes + [n], role) == if n.role == role then WithRole(nodes, role) + [n] else WithRole(nodes, role)
  {
    WithRoleCat(nodes, [n], role);
  }

  lemma NumberedAfter(nodes: seq<NodeInfo>, n: NodeInfo, c: string, d: string)
    requires AllNumbered(nodes, c, d) && Distinct(nodes) && Numbered(n, c, d)
    requires forall m | m in nodes :: m.name != n.name
    ensures AllNumbered(nodes + [n], c, d) && Distinct(nodes + [n])
  {
  }

  /** A new agent, or a new server next to the load balancer, fits in. */
  lemma ShapeAdded(st: ClusterState, n: NodeInfo, c: string, d: string)
    requires Shape(st, c, d) && Numbered(n, c, d)
    requires forall m | m in st.nodes :: m.name != n.name
    requires n.role.Agent? || (n.role.Server? && WithRole(st.nodes, LB) != [])
    ensures Shape(st.(nodes := st.nodes + [n]), c, d)
  {
    NumberedAfter(st.nodes, n, c, d);
    RolesAfter(st.nodes, n, Datastore);
    RolesAfter(st.nodes, n, Server);
    RolesAfter(st.nodes, n, LB);
  }

  lemma RolesWithout(nodes: seq<NodeInfo>, k: nat, role: Role)
    requires k < |nodes| && nodes[k].role != role
    ensures WithRole(nodes[..k] + nodes[k + 1..], role) == WithRole(nodes, role)
  {
    WithRoleCat(nodes[..k], nodes[k + 1..], role);
    WithRoleCat(nodes[..k], nodes[k..], role);
    assert nodes == nodes[..k] + nodes[k..];
    assert nodes[k..][0] == nodes[k] && nodes[k..][1..] == nodes[k + 1..];
  }

  /** Dropping an agent leaves the rest in shape. */
  lemma ShapeRemoved(st: ClusterState, k: nat, c: string, d: string)
    requires Shape(st, c, d) && k < |st.nodes| && st.nodes[k].role.Agent?
    ensures Shape(st.(nodes := st.nodes[..k] + st.nodes[k + 1..]), c, d)
  {
    var rest := st.nodes[..k] + st.nodes[k + 1..];
    forall i | 0 <= i < |rest|
      ensures rest[i] == st.nodes[if i < k then i else i + 1]
    {
    }
    assert AllNumbered(rest, c, d);
    RolesWithout(st.nodes, k, Datastore);
    RolesWithout(st.nodes, k, Server);
    RolesWithout(st.nodes, k, LB);
  }

  // ---------------------------------------------------------------------------------------
  // What the shape says
  // ---------------------------------------------------------------------------------------

  /** The mesh a restore recomputes from the record is the one the members were created with,
      and so is the endpoint the servers use. */
  lemma RecordedMesh(st: ClusterState, c: string, d: string)
    requires Shape(st, c, d) && WithRole(st.nodes, Datastore) != []
    ensures
      var members := WithRole(st.nodes, Datastore);
      && ValidateEtcdMemberCount(|members|).Pass?
      && st.datastoreEndpoint == Join(EtcdClientURLs(c, d, |members|), ",")
      && forall k: nat | k < |members| ::
           && EtcdPeers(c, d, |members|)[k] == members[k].name + "=" + HttpsURL(members[k].id, ETCD_PEER_PORT)
           && EtcdClientURLs(c, d, |members|)[k] == HttpsURL(members[k].id, ETCD_CLIENT_PORT)
  {
    var members := WithRole(st.nodes, Datastore);
    forall k: nat | k < |members|
      ensures EtcdPeers(c, d, |members|)[k] == members[k].name + "=" + HttpsURL(members[k].id, ETCD_PEER_PORT)
      ensures EtcdClientURLs(c, d, |members|)[k] == HttpsURL(members[k].id, ETCD_CLIENT_PORT)
    {
      assert members[k] in st.nodes && Numbered(members[k], c, d);
      MemberURLs(members[k], c, d, k, |members|);
    }
  }

  lemma MemberURLs(m: NodeInfo, c: string, d: string, k: nat, n: nat)
    requires k < n && m.name == EtcdName(c, k + 1) && m.id == NodeFQDN(m.name, d)
    ensures EtcdPeers(c, d, n)[k] == m.name + "=" + HttpsURL(m.id, ETCD_PEER_PORT)
    ensures EtcdClientURLs(c, d, n)[k] == HttpsURL(m.id, ETCD_CLIENT_PORT)
  {
  }

  lemma Between(front: string, a: string, b: string, back: string)
    requires front + a + back == front + b + back
    ensures a == b
  {
    assert |a| == |b|;
    assert a == (front + a + back)[|front|..|front| + |a|];
    assert b == (front + b + back)[|front|..|front| + |b|];
  }

  lemma HostsDiffer(a: string, b: string, port: string)
    requires a != b && ((':' in a || '%' in a) <==> (':' in b || '%' in b))
    ensures HttpsURL(a, port) != HttpsURL(b, port)
  {
    var bracketed := ':' in a || '%' in a;
    var front := if bracketed then "https://" + "[" else "https://";
    var back := if bracketed then "]:" + port else ":" + port;
    Parts(a, port, bracketed, front, back);
    Parts(b, port, bracketed, front, back);
    if front + a + back == front + b + back {
      Between(front, a, b, back);
    }
  }

  lemma Parts(a: string, port: string, bracketed: bool, front: string, back: string)
    requires bracketed == (':' in a || '%' in a)
    requires front == (if bracketed then "https://" + "[" else "https://") && back == (if bracketed then "]:" + port else ":" + port)
    ensures HttpsURL(a, port) == front + a + back
  {
  }

  lemma ServerIsNotLB(n: NodeInfo, c: string, d: string)
    requires CleanText(c) && d != "" && Numbered(n, c, d) && n.role.Server?
    ensures HttpsURL(NodeFQDN(n.name, d), API_PORT) != HttpsURL(ClusterAPIFQDN(c, d), API_PORT)
  {
    NumberedOwner(n, c, d);
    CleanNames(c, LB, 0);
    assert !NameChar(':') && !NameChar('%') && CleanText("");
    OwnedNode(c, LB, 0, d);
    assert ClusterAPIFQDN(c, d) == NodeFQDN(ApiLBName(c), d);
    HostsDiffer(n.id, ClusterAPIFQDN(c, d), API_PORT);
  }

  /** With names, the recorded endpoint is the load balancer's exactly when one is recorded. */
  lemma EndpointNamesLB(st: ClusterState, c: string, d: string)
    requires Shape(st, c, d) && d != ""
    ensures st.serverURL == HttpsURL(ClusterAPIFQDN(c, d), API_PORT) <==> WithRole(st.nodes, LB) != []
  {
    var s := WithRole(st.nodes, Server)[0];
    assert s in st.nodes && Numbered(s, c, d);
    ServerIsNotLB(s, c, d);
  }
}
