/** The checks bring-up makes on its request and its result (provider/apple/create.go). */
module Checks {
  import opened Types
  import opened Names
  import opened Recipes

  // ---------------------------------------------------------------------------------------
  // Addresses
  // ---------------------------------------------------------------------------------------

  ghost predicate Addressed(nodes: seq<NodeInfo>) {
    forall n | n in nodes :: n.ips != []
  }

  /** Every node has an address, and no two share their first. */
  ghost predicate DistinctIPs(nodes: seq<NodeInfo>) {
    && Addressed(nodes)
    && forall i, j | 0 <= i < j < |nodes| :: nodes[i].ips != [] && nodes[j].ips != [] ==> nodes[i].ips[0] != nodes[j].ips[0]
  }

  lemma DistinctMore(nodes: seq<NodeInfo>, i: nat)
    requires i < |nodes| && DistinctIPs(nodes[..i]) && nodes[i].ips != []
    ensures DistinctIPs(nodes[..i + 1]) <==> forall k: nat | k < i :: nodes[k].ips[0] != nodes[i].ips[0]
  {
    assert nodes[..i + 1] == nodes[..i] + [nodes[i]];
    assert forall k: nat | k < i :: nodes[..i][k] == nodes[k];
    if forall k: nat | k < i :: nodes[k].ips[0] != nodes[i].ips[0] {
      forall a, b | 0 <= a < b < i + 1
        ensures nodes[a].ips != [] && nodes[b].ips != [] ==> nodes[a].ips[0] != nodes[b].ips[0]
      {
        assert b < i ==> nodes[..i][a] == nodes[a] && nodes[..i][b] == nodes[b];
      }
    }
  }

  /** assertDistinctIPs. */
  method AssertDistinctIPs(nodes: seq<NodeInfo>) returns (r: Outcome)
    ensures r.Pass? <==> DistinctIPs(nodes)
    ensures r.Fail? ==> !r.error.StaleVolume? && !r.error.BadManifest?
  {
    var seen: map<Addr, string> := map[];
    for i := 0 to |nodes|
      invariant DistinctIPs(nodes[..i])
      invariant forall ip :: ip in seen <==> exists k: nat :: k < i && nodes[k].ips != [] && nodes[k].ips[0] == ip
    {
      if nodes[i].ips == [] {
        assert nodes[i] in nodes;
        return Fail(NodeWithoutIP(nodes[i].name));
      }
      var ip := nodes[i].ips[0];
      if ip in seen {
        return Fail(SharedIP(seen[ip], nodes[i].name));
      }
      DistinctMore(nodes, i);
      seen := seen[ip := nodes[i].name];
    }
    assert nodes[..|nodes|] == nodes;
    r := Pass;
  }

  // ---------------------------------------------------------------------------------------
  // The request
  // ---------------------------------------------------------------------------------------

  function ServersIn(nodes: seq<NodeConfig>): nat {
    if nodes == [] then 0 else ServersIn(nodes[..|nodes| - 1]) + if nodes[|nodes| - 1].role.Server? then 1 else 0
  }

  /** A request bring-up does not refuse outright. */
  predicate Servable(cfg: ClusterConfig) {
    && ServersIn(cfg.nodes) >= 1
    && (ServersIn(cfg.nodes) > 1 ==> cfg.datastoreEndpoint != "" || cfg.manageDatastore)
    && (cfg.manageDatastore && cfg.datastoreEndpoint == "" && cfg.datastoreMembers != 0 ==>
          cfg.datastoreMembers >= 3 && cfg.datastoreMembers % 2 == 1)
  }

  /** What the checks see of the host's files: the directories that hold a CA bundle, and for
      each path that leads to a file, and not to a directory, the absolute path of that file. */
  datatype Host = Host(bundles: set<string>, manifests: map<string, string>)

  predicate Absolute(path: string) {
    path != "" && path[0] == '/'
  }

  /** The CA directory, if one is asked for, can be mounted and holds a bundle. */
  predicate Bundled(host: Host, dir: string) {
    dir == "" || (Absolute(dir) && dir in host.bundles)
  }

  /** validateCADir. */
  method ValidateCADir(host: Host, dir: string) returns (r: Outcome)
    ensures r.Pass? <==> Bundled(host, dir)
    ensures r.Fail? ==> r.error == BadCADir
  {
    if dir == "" {
      return Pass;
    }
    if dir[0] != '/' {
      return Fail(BadCADir);
    }
    if dir !in host.bundles {
      return Fail(BadCADir);
    }
    r := Pass;
  }

  /** validateClusterConfig. */
  method ValidateClusterConfig(host: Host, cfg: ClusterConfig) returns (r: Outcome)
    ensures r.Pass? <==> Bundled(host, cfg.caDir) && Servable(cfg)
    ensures r.Fail? ==> !r.error.StaleVolume? && !r.error.BadManifest?
  {
    r := ValidateCADir(host, cfg.caDir);
    if r.Fail? {
      return;
    }
    var servers := 0;
    for i := 0 to |cfg.nodes|
      invariant servers == ServersIn(cfg.nodes[..i])
    {
      assert cfg.nodes[..i + 1][..i] == cfg.nodes[..i];
      if cfg.nodes[i].role.Server? {
        servers := servers + 1;
      }
    }
    assert cfg.nodes[..|cfg.nodes|] == cfg.nodes;
    if servers == 0 {
      return Fail(NoServer);
    }
    if servers > 1 && cfg.datastoreEndpoint == "" && !cfg.manageDatastore {
      return Fail(NeedsDatastore);
    }
    if cfg.manageDatastore && cfg.datastoreEndpoint == "" && cfg.datastoreMembers != 0 {
      return ValidateEtcdMemberCount(cfg.datastoreMembers);
    }
    r := Pass;
  }

  // ---------------------------------------------------------------------------------------
  // Manifests
  // ---------------------------------------------------------------------------------------

  /** No two manifests land on the same file in the node. */
  ghost predicate DistinctTargets(paths: seq<string>) {
    forall i, j | 0 <= i < j < |paths| :: Base(paths[i]) != Base(paths[j])
  }

  /** Every request leads to a file, and no two files to the same place. */
  ghost predicate Resolvable(host: Host, manifests: seq<string>) {
    && (forall m | m in manifests :: m != "" && m in host.manifests)
    && (forall i, j | 0 <= i < j < |manifests| :: manifests[i] in host.manifests && manifests[j] in host.manifests ==>
          Base(host.manifests[manifests[i]]) != Base(host.manifests[manifests[j]]))
  }

  lemma Colliding(host: Host, manifests: seq<string>, i: nat, j: nat)
    requires i < j < |manifests| && manifests[i] in host.manifests && manifests[j] in host.manifests
    requires Base(host.manifests[manifests[i]]) == Base(host.manifests[manifests[j]])
    ensures !Resolvable(host, manifests)
  {
    hide Base;
  }

  /** resolveManifests. */
  method ResolveManifests(host: Host, manifests: seq<string>) returns (r: Result<seq<string>>)
    ensures r.Ok? <==> Resolvable(host, manifests)
    ensures r.Ok? ==>
      && |r.value| == |manifests| && DistinctTargets(r.value)
      && forall k: nat | k < |manifests| :: r.value[k] == host.manifests[manifests[k]]
    ensures r.Err? ==> r.error == BadManifest
  {
    var resolved: seq<string> := [];
    var seen: map<string, string> := map[];
    for i := 0 to |manifests|
      invariant |resolved| == i && DistinctTargets(resolved)
      invariant forall k: nat | k < i :: manifests[k] != "" && manifests[k] in host.manifests && resolved[k] == host.manifests[manifests[k]]
      invariant forall base :: base in seen <==> exists k: nat :: k < i && Base(resolved[k]) == base
    {
      assert manifests[i] in manifests;
      if manifests[i] == "" || manifests[i] !in host.manifests {
        return Err(BadManifest);
      }
      var path := host.manifests[manifests[i]];
      var base := Base(path);
      if base in seen {
        ghost var k: nat :| k < i && Base(resolved[k]) == base;
        Colliding(host, manifests, k, i);
        return Err(BadManifest);
      }
      seen := seen[base := manifests[i]];
      resolved := resolved + [path];
    }
    r := Ok(resolved);
  }
}
