/** The request every run starts from (cmd/k3ac/main.go) and the cluster it asks for. */
module Request {
  import opened Types
  import opened Names
  import opened Ordering
  import opened Recipes
  import opened Records
  import opened Checks

  // ---------------------------------------------------------------------------------------
  // buildNodes and buildClusterConfig
  // ---------------------------------------------------------------------------------------

  datatype NodeSpec = NodeSpec(
    clusterName: string,
    serverCount: nat,
    agentCount: nat,
    serverCPUs: int,
    agentCPUs: int,
    serverMemMB: int,
    agentMemMB: int,
    labels: seq<string>,
    serverArgs: seq<string>,
    agentArgs: seq<string>)

  datatype Inputs = Inputs(
    name: string,
    image: string,
    network: string,
    token: string,
    datastore: string,
    serverCount: nat,
    datastoreMembers: int,
    datastoreImage: string,
    datastoreMemMB: int,
    manifests: seq<string>,
    envVars: seq<string>,
    dnsServers: seq<string>,
    caDir: string)

  /** vcpuToNano. */
  function VcpuToNano(vcpus: int): int { vcpus * GIGA }

  function ServerOf(s: NodeSpec, i: nat): NodeConfig {
    NodeConfig(ServerName(s.clusterName, i), Server, s.serverMemMB * MIB, VcpuToNano(s.serverCPUs), s.labels, s.serverArgs)
  }

  function AgentOf(s: NodeSpec, i: nat): NodeConfig {
    NodeConfig(AgentName(s.clusterName, i), Agent, s.agentMemMB * MIB, VcpuToNano(s.agentCPUs), s.labels, s.agentArgs)
  }

  function Servers(s: NodeSpec, n: nat): (r: seq<NodeConfig>)
    ensures |r| == n && forall k: nat | k < n :: r[k] == ServerOf(s, k + 1)
  {
    seq(n, k requires 0 <= k < n => ServerOf(s, k + 1))
  }

  function Agents(s: NodeSpec, n: nat): (r: seq<NodeConfig>)
    ensures |r| == n && forall k: nat | k < n :: r[k] == AgentOf(s, k + 1)
  {
    seq(n, k requires 0 <= k < n => AgentOf(s, k + 1))
  }

  /** buildNodes. */
  method BuildNodes(s: NodeSpec) returns (nodes: seq<NodeConfig>)
    ensures nodes == Servers(s, s.serverCount) + Agents(s, s.agentCount) && |nodes| == s.serverCount + s.agentCount
    ensures forall k: nat | k < s.serverCount ::
              nodes[k] == NodeConfig(ServerName(s.clusterName, k + 1), Server, s.serverMemMB * 1024 * 1024, s.serverCPUs * 1_000_000_000, s.labels, s.serverArgs)
    ensures forall k: nat | s.serverCount <= k < |nodes| ::
              nodes[k] == NodeConfig(AgentName(s.clusterName, k - s.serverCount + 1), Agent, s.agentMemMB * 1024 * 1024, s.agentCPUs * 1_000_000_000,
                                     s.labels, s.agentArgs)
  {
    nodes := [];
    for i := 0 to s.serverCount
      invariant nodes == Servers(s, i)
    {
      nodes := nodes + [ServerOf(s, i + 1)];
    }
    ghost var servers := nodes;
    for i := 0 to s.agentCount
      invariant nodes == servers + Agents(s, i)
    {
      nodes := nodes + [AgentOf(s, i + 1)];
      assert Agents(s, i + 1) == Agents(s, i) + [AgentOf(s, i + 1)];
    }
  }

  /** buildClusterConfig. */
  function BuildClusterConfig(i: Inputs, nodes: seq<NodeConfig>): ClusterConfig {
    ClusterConfig(i.name, i.image, i.network, i.token, i.datastore, i.serverCount > 1 && i.datastore == "", i.datastoreMembers,
                  i.datastoreImage, i.datastoreMemMB * MIB, "", i.serverCount > 1, i.envVars, i.dnsServers, i.caDir, i.manifests, nodes)
  }

  /** What such a request is: servers numbered from 1, then agents numbered from 1; a managed
      datastore and a load balancer exactly for several servers. */
  ghost predicate Requested(cfg: ClusterConfig) {
    var n := ServersIn(cfg.nodes);
    && ValidName(cfg.name) && UsableImage(cfg.image) && UsableImage(cfg.datastoreImage)
    && n <= |cfg.nodes|
    && (forall k: nat | k < n :: cfg.nodes[k].role.Server? && cfg.nodes[k].name == ServerName(cfg.name, k + 1))
    && (forall k: nat | n <= k < |cfg.nodes| :: cfg.nodes[k].role.Agent? && cfg.nodes[k].name == AgentName(cfg.name, k - n + 1))
    && cfg.manageDatastore == (n > 1 && cfg.datastoreEndpoint == "")
    && cfg.provisionAPILB == (n > 1)
    && cfg.datastoreTLSDir == ""
  }

  lemma {:induction false} CountServers(a: seq<NodeConfig>, b: seq<NodeConfig>)
    requires forall n | n in a :: n.role.Server?
    requires forall n | n in b :: !n.role.Server?
    ensures ServersIn(a + b) == |a|
    decreases |a| + |b|
  {
    var all := a + b;
    if b != [] {
      assert all[..|all| - 1] == a + b[..|b| - 1];
      CountServers(a, b[..|b| - 1]);
    } else if a != [] {
      assert all[..|all| - 1] == a[..|a| - 1] + [];
      CountServers(a[..|a| - 1], []);
    }
  }

  /** Every command line gives such a request. */
  lemma RequestsAreRequested(s: NodeSpec, i: Inputs)
    requires i.name == s.clusterName && i.serverCount == s.serverCount
    requires ValidName(i.name) && UsableImage(i.image) && UsableImage(i.datastoreImage)
    ensures Requested(BuildClusterConfig(i, Servers(s, s.serverCount) + Agents(s, s.agentCount)))
  {
    CountServers(Servers(s, s.serverCount), Agents(s, s.agentCount));
  }

  // ---------------------------------------------------------------------------------------
  // The cluster it asks for
  // ---------------------------------------------------------------------------------------

  predicate ManagesDatastore(cfg: ClusterConfig) {
    cfg.manageDatastore && cfg.datastoreEndpoint == ""
  }

  predicate HasLB(cfg: ClusterConfig, d: string) {
    cfg.provisionAPILB && d != ""
  }

  function MemberCount(cfg: ClusterConfig): int {
    if cfg.datastoreMembers == 0 then 3 else cfg.datastoreMembers
  }

  function MemberMemory(cfg: ClusterConfig): int {
    if cfg.datastoreMemory == 0 then ETCD_MEMORY else cfg.datastoreMemory
  }

  /** etcdMembers, one member. */
  function EtcdMember(cfg: ClusterConfig, k: nat): NodeConfig {
    NodeConfig(EtcdName(cfg.name, k + 1), Datastore, MemberMemory(cfg), 0, [], [])
  }

  function EtcdMembers(cfg: ClusterConfig): (r: seq<NodeConfig>)
    ensures |r| == (if ManagesDatastore(cfg) && MemberCount(cfg) >= 0 then MemberCount(cfg) else 0)
    ensures forall k: nat | k < |r| :: r[k] == EtcdMember(cfg, k)
  {
    var n := if ManagesDatastore(cfg) && MemberCount(cfg) >= 0 then MemberCount(cfg) else 0;
    seq(n, k requires 0 <= k < n => EtcdMember(cfg, k))
  }

  function LBNodes(cfg: ClusterConfig, d: string): seq<NodeConfig> {
    if HasLB(cfg, d) then [NodeConfig(ApiLBName(cfg.name), LB, 0, 0, [], [])] else []
  }

  /** Everything the request brings up, in the order it comes up. */
  function Lineup(cfg: ClusterConfig, d: string): seq<NodeConfig>
    requires ServersIn(cfg.nodes) <= |cfg.nodes|
  {
    EtcdMembers(cfg) + (cfg.nodes[..ServersIn(cfg.nodes)] + (LBNodes(cfg, d) + cfg.nodes[ServersIn(cfg.nodes)..]))
  }

  function Infos(nodes: seq<NodeConfig>, d: string): (r: seq<NodeInfo>)
    ensures |r| == |nodes| && forall k: nat | k < |nodes| :: r[k] == InfoOf(nodes[k], d, "")
  {
    seq(|nodes|, k requires 0 <= k < |nodes| => InfoOf(nodes[k], d, ""))
  }

  /** The endpoint the servers use. */
  function EndpointOf(cfg: ClusterConfig, d: string): string {
    if ManagesDatastore(cfg) && MemberCount(cfg) >= 0 then EtcdEndpoint(cfg.name, d, MemberCount(cfg)) else cfg.datastoreEndpoint
  }

  /** The record of the cluster, before its nodes have addresses. */
  function Draft(cfg: ClusterConfig, d: string, url: string): ClusterState
    requires ServersIn(cfg.nodes) <= |cfg.nodes|
  {
    ClusterState(cfg.name, cfg.network, cfg.token, cfg.image, EndpointOf(cfg, d), cfg.datastoreImage, "", url, Infos(Lineup(cfg, d), d))
  }

  lemma {:induction false} RoleOfAll(nodes: seq<NodeInfo>, role: Role)
    requires forall n | n in nodes :: n.role == role
    ensures forall other :: WithRole(nodes, other) == if other == role then nodes else []
  {
    if nodes != [] {
      RoleOfAll(nodes[1..], role);
      assert nodes == [nodes[0]] + nodes[1..];
    }
  }

  lemma InfosCat(a: seq<NodeConfig>, b: seq<NodeConfig>, d: string)
    ensures Infos(a + b, d) == Infos(a, d) + Infos(b, d)
  {
  }

  ghost predicate AllOf(nodes: seq<NodeInfo>, role: Role) {
    forall n | n in nodes :: n.role == role
  }

  lemma FourRoles(e: seq<NodeInfo>, s: seq<NodeInfo>, l: seq<NodeInfo>, a: seq<NodeInfo>)
    requires AllOf(e, Datastore) && AllOf(s, Server) && AllOf(l, LB) && AllOf(a, Agent)
    ensures
      var nodes := e + (s + (l + a));
      WithRole(nodes, Datastore) == e && WithRole(nodes, Server) == s && WithRole(nodes, LB) == l && WithRole(nodes, Agent) == a
  {
    RoleOfAll(e, Datastore);
    RoleOfAll(s, Server);
    RoleOfAll(l, LB);
    RoleOfAll(a, Agent);
    forall role
      ensures WithRole(e + (s + (l + a)), role) == WithRole(e, role) + (WithRole(s, role) + (WithRole(l, role) + WithRole(a, role)))
    {
      WithRoleCat(e, s + (l + a), role);
      WithRoleCat(s, l + a, role);
      WithRoleCat(l, a, role);
    }
    var nodes := e + (s + (l + a));
    assert WithRole(nodes, Datastore) == e + ([] + ([] + []));
    assert WithRole(nodes, Server) == [] + (s + ([] + []));
    assert WithRole(nodes, LB) == [] + ([] + (l + []));
    assert WithRole(nodes, Agent) == [] + ([] + ([] + a));
  }

  lemma PartRoles(cfg: ClusterConfig, d: string)
    requires Requested(cfg)
    ensures AllOf(Infos(EtcdMembers(cfg), d), Datastore) && AllOf(Infos(cfg.nodes[..ServersIn(cfg.nodes)], d), Server)
    ensures AllOf(Infos(LBNodes(cfg, d), d), LB) && AllOf(Infos(cfg.nodes[ServersIn(cfg.nodes)..], d), Agent)
  {
  }

  function EtcdInfos(cfg: ClusterConfig, d: string): seq<NodeInfo> { Infos(EtcdMembers(cfg), d) }

  function ServerInfos(cfg: ClusterConfig, d: string): seq<NodeInfo>
    requires ServersIn(cfg.nodes) <= |cfg.nodes|
  {
    Infos(cfg.nodes[..ServersIn(cfg.nodes)], d)
  }

  function LBInfos(cfg: ClusterConfig, d: string): seq<NodeInfo> { Infos(LBNodes(cfg, d), d) }

  function AgentInfos(cfg: ClusterConfig, d: string): seq<NodeInfo>
    requires ServersIn(cfg.nodes) <= |cfg.nodes|
  {
    Infos(cfg.nodes[ServersIn(cfg.nodes)..], d)
  }

  lemma LineupParts(cfg: ClusterConfig, d: string)
    requires ServersIn(cfg.nodes) <= |cfg.nodes|
    ensures Infos(Lineup(cfg, d), d) == EtcdInfos(cfg, d) + (ServerInfos(cfg, d) + (LBInfos(cfg, d) + AgentInfos(cfg, d)))
  {
    var n := ServersIn(cfg.nodes);
    InfosCat(EtcdMembers(cfg), cfg.nodes[..n] + (LBNodes(cfg, d) + cfg.nodes[n..]), d);
    InfosCat(cfg.nodes[..n], LBNodes(cfg, d) + cfg.nodes[n..], d);
    InfosCat(LBNodes(cfg, d), cfg.nodes[n..], d);
  }

  /** The lineup's nodes by role. */
  lemma LineupRoles(cfg: ClusterConfig, d: string)
    requires Requested(cfg)
    ensures
      var nodes := Infos(Lineup(cfg, d), d);
      && WithRole(nodes, Datastore) == EtcdInfos(cfg, d) && WithRole(nodes, Server) == ServerInfos(cfg, d)
      && WithRole(nodes, LB) == LBInfos(cfg, d) && WithRole(nodes, Agent) == AgentInfos(cfg, d)
    ensures
      var nodes := Infos(Lineup(cfg, d), d);
      && (WithRole(nodes, Datastore) != [] ==> |WithRole(nodes, Datastore)| == if cfg.datastoreMembers == 0 then 3 else cfg.datastoreMembers)
      && (forall m | m in WithRole(nodes, Datastore) :: m.memory == if cfg.datastoreMemory == 0 then 512 * 1024 * 1024 else cfg.datastoreMemory)
      && |WithRole(nodes, LB)| == if cfg.provisionAPILB && d != "" then 1 else 0
  {
    LineupParts(cfg, d);
    PartRoles(cfg, d);
    FourRoles(EtcdInfos(cfg, d), ServerInfos(cfg, d), LBInfos(cfg, d), AgentInfos(cfg, d));
  }

  /** Each part is numbered by its own names. */
  ghost predicate NumberedFrom(nodes: seq<NodeInfo>, c: string, d: string, role: Role) {
    forall k: nat | k < |nodes| :: nodes[k].role == role && nodes[k].name == NodeName(c, role, k + 1) && Numbered(nodes[k], c, d)
  }

  lemma PartsNumbered(cfg: ClusterConfig, d: string)
    requires Requested(cfg)
    ensures NumberedFrom(EtcdInfos(cfg, d), cfg.name, d, Datastore) && NumberedFrom(ServerInfos(cfg, d), cfg.name, d, Server)
    ensures NumberedFrom(LBInfos(cfg, d), cfg.name, d, LB) && NumberedFrom(AgentInfos(cfg, d), cfg.name, d, Agent)
  {
    ByName(EtcdInfos(cfg, d), cfg.name, d, Datastore);
    ByName(ServerInfos(cfg, d), cfg.name, d, Server);
    ByName(LBInfos(cfg, d), cfg.name, d, LB);
    ByName(AgentInfos(cfg, d), cfg.name, d, Agent);
  }

  lemma ByName(nodes: seq<NodeInfo>, c: string, d: string, role: Role)
    requires forall k: nat | k < |nodes| :: nodes[k].role == role && nodes[k].name == NodeName(c, role, k + 1) && nodes[k].id == NodeFQDN(nodes[k].name, d)
    requires forall k: nat | k < |nodes| && !role.IsK3s() :: nodes[k].nanoCPUs == 0 && nodes[k].labels == [] && nodes[k].extraArgs == []
    ensures NumberedFrom(nodes, c, d, role)
  {
  }

  lemma ApartParts(a: seq<NodeInfo>, b: seq<NodeInfo>, c: string, d: string, role: Role, role': Role, i: nat, k: nat)
    requires NumberedFrom(a, c, d, role) && NumberedFrom(b, c, d, role') && i < |a| && k < |b|
    requires role != role' || (i != k && !role.LB?)
    ensures a[i].name != b[k].name
  {
    if a[i].name == b[k].name {
      NodeNameInjective(c, role, i + 1, c, role', k + 1);
    }
  }

  lemma DistinctCat(a: seq<NodeInfo>, b: seq<NodeInfo>)
    requires Distinct(a) && Distinct(b) && forall i: nat, k: nat | i < |a| && k < |b| :: a[i].name != b[k].name
    ensures Distinct(a + b)
  {
  }

  lemma DistinctPart(a: seq<NodeInfo>, c: string, d: string, role: Role)
    requires NumberedFrom(a, c, d, role) && (role.LB? ==> |a| <= 1)
    ensures Distinct(a) && AllNumbered(a, c, d)
  {
    forall i, k | 0 <= i < k < |a|
      ensures a[i].name != a[k].name
    {
      ApartParts(a, a, c, d, role, role, i, k);
    }
  }

  lemma TwoParts(a: seq<NodeInfo>, b: seq<NodeInfo>, c: string, d: string, role: Role, role': Role)
    requires NumberedFrom(a, c, d, role) && NumberedFrom(b, c, d, role') && role != role'
    ensures forall i: nat, k: nat | i < |a| && k < |b| :: a[i].name != b[k].name
  {
    forall i: nat, k: nat | i < |a| && k < |b|
      ensures a[i].name != b[k].name
    {
      ApartParts(a, b, c, d, role, role', i, k);
    }
  }

  lemma LineupNamed(cfg: ClusterConfig, d: string)
    requires Requested(cfg)
    ensures AllNumbered(Infos(Lineup(cfg, d), d), cfg.name, d) && Distinct(Infos(Lineup(cfg, d), d))
  {
    var e, s, l, a := EtcdInfos(cfg, d), ServerInfos(cfg, d), LBInfos(cfg, d), AgentInfos(cfg, d);
    PartsNumbered(cfg, d);
    LineupParts(cfg, d);
    AllDistinct(e, s, l, a, cfg.name, d);
  }

  lemma AllDistinct(e: seq<NodeInfo>, s: seq<NodeInfo>, l: seq<NodeInfo>, a: seq<NodeInfo>, c: string, d: string)
    requires NumberedFrom(e, c, d, Datastore) && NumberedFrom(s, c, d, Server) && NumberedFrom(l, c, d, LB) && NumberedFrom(a, c, d, Agent)
    requires |l| <= 1
    ensures AllNumbered(e + (s + (l + a)), c, d) && Distinct(e + (s + (l + a)))
  {
    DistinctPart(e, c, d, Datastore);
    DistinctPart(s, c, d, Server);
    DistinctPart(l, c, d, LB);
    DistinctPart(a, c, d, Agent);
    TwoParts(l, a, c, d, LB, Agent);
    DistinctCat(l, a);
    TwoParts(s, l, c, d, Server, LB);
    TwoParts(s, a, c, d, Server, Agent);
    ApartCat(s, l, a);
    DistinctCat(s, l + a);
    TwoParts(e, s, c, d, Datastore, Server);
    TwoParts(e, l, c, d, Datastore, LB);
    TwoParts(e, a, c, d, Datastore, Agent);
    ApartCat(e, l, a);
    ApartCat(e, s, l + a);
    DistinctCat(e, s + (l + a));
  }

  lemma ApartCat(x: seq<NodeInfo>, a: seq<NodeInfo>, b: seq<NodeInfo>)
    requires forall i: nat, k: nat | i < |x| && k < |a| :: x[i].name != a[k].name
    requires forall i: nat, k: nat | i < |x| && k < |b| :: x[i].name != b[k].name
    ensures forall i: nat, k: nat | i < |x| && k < |a + b| :: x[i].name != (a + b)[k].name
  {
  }

  /** The endpoint bring-up hands out for this request. */
  ghost predicate RightURL(cfg: ClusterConfig, d: string, url: string) {
    && (HasLB(cfg, d) ==> url == HttpsURL(ClusterAPIFQDN(cfg.name, d), API_PORT))
    && (!HasLB(cfg, d) && d != "" ==> url == HttpsURL(NodeFQDN(ServerName(cfg.name, 1), d), API_PORT))
  }

  /** A request that passes validation gives a well-shaped record. */
  lemma DraftShape(cfg: ClusterConfig, d: string, url: string)
    requires Requested(cfg) && Servable(cfg) && RightURL(cfg, d, url)
    requires ManagesDatastore(cfg) ==> d != "" && MemberCount(cfg) >= 3 && MemberCount(cfg) % 2 == 1
    ensures Shape(Draft(cfg, d, url), cfg.name, d)
  {
    LineupRoles(cfg, d);
    LineupNamed(cfg, d);
    DraftQuorum(cfg, d);
    DraftFronted(cfg, d, url);
  }

  lemma DraftQuorum(cfg: ClusterConfig, d: string)
    requires ManagesDatastore(cfg) ==> d != "" && MemberCount(cfg) >= 3 && MemberCount(cfg) % 2 == 1
    ensures Quorum(EtcdInfos(cfg, d), EndpointOf(cfg, d), cfg.name, d)
  {
  }

  lemma DraftFronted(cfg: ClusterConfig, d: string, url: string)
    requires Requested(cfg) && Servable(cfg) && RightURL(cfg, d, url)
    requires ManagesDatastore(cfg) ==> d != "" && MemberCount(cfg) >= 3
    ensures Fronted(ServerInfos(cfg, d), LBInfos(cfg, d), EndpointOf(cfg, d), url, cfg.name, d)
  {
    var s := ServerInfos(cfg, d);
    assert s[0].name == ServerName(cfg.name, 1);
    if ManagesDatastore(cfg) {
      EndpointNotEmpty(cfg.name, d, MemberCount(cfg));
    }
  }

  lemma EndpointNotEmpty(c: string, d: string, n: nat)
    requires n >= 1
    ensures EtcdEndpoint(c, d, n) != ""
  {
    var urls := EtcdClientURLs(c, d, n);
    assert |urls[n - 1]| > 0;
  }

  /** The lineup is in start order: what a node depends on comes before it. */
  lemma LineupSorted(cfg: ClusterConfig, d: string, i: nat, k: nat)
    requires Requested(cfg) && i < |Lineup(cfg, d)| && k < |Lineup(cfg, d)|
    requires StopRank(Lineup(cfg, d)[k].role) > StopRank(Lineup(cfg, d)[i].role)
    ensures k < i
  {
  }
}
