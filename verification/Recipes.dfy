/** The argument vectors the launcher hands to the container CLI (provider/apple/node.go,
    snapshot.go, rotate.go), and how the CLI reads them. */
module Recipes {
  import opened Types
  import opened Text
  import opened Names

  const DEFAULT_K3S_IMAGE := "rancher/k3s:v1.32.5-k3s1"
  const DEFAULT_ETCD_IMAGE := "quay.io/coreos/etcd:v3.5.16"
  const API_LB_IMAGE := "haproxy:3.0-alpine"
  const K3S_MOUNT := "/var/lib/rancher/k3s"
  const MANIFESTS_DIR := "/var/lib/rancher/k3s/server/manifests"
  const KUBECONFIG_MOUNT := "/mnt/k3s-out"
  const KUBECONFIG_PATH := "/mnt/k3s-out/k3s.yaml"
  const ETCD_DATA_MOUNT := "/data"
  const ETCD_DATA_DIR := "/data/etcd"
  const ETCD_BACKUP_MOUNT := "/backup"
  const ETCD_TLS_MOUNT := "/etc/etcd/tls"
  const ETCD_TLS_RO := "/etc/etcd/tls:ro"
  const CA_MOUNT := "/etc/k3ac/ca"
  const CA_BUNDLE_PATH := "/etc/k3ac/ca/ca-bundle.pem"
  const LB_CONFIG_MOUNT := "/usr/local/etc/haproxy"
  const ETCD_BINARY := "/usr/local/bin/etcd"
  const ETCDCTL_BINARY := "/usr/local/bin/etcdctl"
  const CLUSTER_KEY := "k3s.cluster.name="
  const OWNED_LABEL := "k3s.owned=true"
  const ROLE_KEY := "k3s.role="
  const MIB := 1024 * 1024
  const GIGA := 1000 * 1000 * 1000
  const ETCD_MEMORY := 512 * 1024 * 1024
  const LB_MEMORY := 256 * 1024 * 1024

  // ---------------------------------------------------------------------------------------
  // How the CLI reads `run`
  // ---------------------------------------------------------------------------------------

  /** What a container is run on: whether the CLI waits for it, and its network, sizes, resolvers,
      capabilities and scratch mounts. */
  datatype Machine = Machine(
    detached: bool,
    network: seq<string>,
    memory: seq<string>,
    cpus: seq<string>,
    dns: seq<string>,
    caps: seq<string>,
    scratch: seq<string>)

  /** What a `run` vector asks for: options by kind in their given order, then the image and
      the command that follows it. */
  datatype Launch = Launch(
    names: seq<string>,
    volumes: seq<string>,
    labels: seq<string>,
    env: seq<string>,
    image: string,
    command: seq<string>,
    machine: Machine)

  function NoOptions(detached: bool): Launch {
    Launch([], [], [], [], "", [], Machine(detached, [], [], [], [], [], []))
  }

  /** The flags that take the next argument as their value. */
  predicate Valued(flag: string) {
    flag in ["--name", "--cap-add", "--memory", "--cpus", "--tmpfs", "--volume", "--label", "--env", "--dns", "--network"]
  }

  /** An image reference, as opposed to a flag. */
  predicate PlainImage(image: string) {
    image != "" && image[0] != '-'
  }

  function Take(l: Launch, flag: string, values: seq<string>): Launch {
    if flag == "--name" then l.(names := l.names + values)
    else if flag == "--volume" then l.(volumes := l.volumes + values)
    else if flag == "--label" then l.(labels := l.labels + values)
    else if flag == "--env" then l.(env := l.env + values)
    else l.(machine := Fit(l.machine, flag, values))
  }

  function Fit(m: Machine, flag: string, values: seq<string>): Machine {
    if flag == "--network" then m.(network := m.network + values)
    else if flag == "--memory" then m.(memory := m.memory + values)
    else if flag == "--cpus" then m.(cpus := m.cpus + values)
    else if flag == "--dns" then m.(dns := m.dns + values)
    else if flag == "--cap-add" then m.(caps := m.caps + values)
    else if flag == "--tmpfs" then m.(scratch := m.scratch + values)
    else m
  }

  function ReadOptions(args: seq<string>, l: Launch): Option<Launch>
    decreases |args|
  {
    if args == [] then None
    else if args[0] == "--detach" then ReadOptions(args[1..], l.(machine := l.machine.(detached := true)))
    else if Valued(args[0]) then
      if |args| == 1 then None else ReadOptions(args[2..], Take(l, args[0], [args[1]]))
    else Some(l.(image := args[0], command := args[1..]))
  }

  /** The CLI's reading of a `run` vector. */
  function ReadRun(args: seq<string>): Option<Launch> {
    if args != [] && args[0] == "run" then ReadOptions(args[1..], NoOptions(false)) else None
  }

  /** The flag given once per value. */
  function Tagged(flag: string, values: seq<string>): (args: seq<string>)
    ensures |args| == 2 * |values|
  {
    if values == [] then [] else Tagged(flag, values[..|values| - 1]) + [flag, values[|values| - 1]]
  }

  lemma OptionReads(flag: string, value: string, rest: seq<string>, l: Launch)
    requires Valued(flag)
    ensures ReadOptions([flag, value] + rest, l) == ReadOptions(rest, Take(l, flag, [value]))
  {
    assert flag[2] != 'd' || |flag| != 8;
    assert flag != "--detach";
    assert ([flag, value] + rest)[2..] == rest;
  }

  lemma TakeTwice(l: Launch, flag: string, a: seq<string>, b: seq<string>)
    ensures Take(Take(l, flag, a), flag, b) == Take(l, flag, a + b)
  {
    assert l.names + a + b == l.names + (a + b);
    assert l.volumes + a + b == l.volumes + (a + b);
    assert l.labels + a + b == l.labels + (a + b);
    assert l.env + a + b == l.env + (a + b);
    FitTwice(l.machine, flag, a, b);
  }

  lemma FitTwice(m: Machine, flag: string, a: seq<string>, b: seq<string>)
    ensures Fit(Fit(m, flag, a), flag, b) == Fit(m, flag, a + b)
  {
    assert m.network + a + b == m.network + (a + b) && m.memory + a + b == m.memory + (a + b);
    assert m.cpus + a + b == m.cpus + (a + b) && m.dns + a + b == m.dns + (a + b);
    assert m.caps + a + b == m.caps + (a + b) && m.scratch + a + b == m.scratch + (a + b);
  }

  /** Options of one flag read as that flag's values, in order. */
  lemma {:induction false} TaggedReads(flag: string, values: seq<string>, rest: seq<string>, l: Launch)
    requires Valued(flag)
    ensures ReadOptions(Tagged(flag, values) + rest, l) == ReadOptions(rest, Take(l, flag, values))
    decreases |values|
  {
    if values == [] {
      assert Tagged(flag, values) + rest == rest;
      assert Take(l, flag, values) == l;
    } else {
      var init, last := values[..|values| - 1], values[|values| - 1];
      var more := [flag, last] + rest;
      Together(Tagged(flag, init), [flag, last], rest);
      TaggedReads(flag, init, more, l);
      OptionReads(flag, last, rest, Take(l, flag, init));
      TakeTwice(l, flag, init, [last]);
      assert values == init + [last];
    }
  }

  /** Flags that say what the container runs on. */
  lemma FitReads(flag: string, values: seq<string>, rest: seq<string>, l: Launch)
    requires flag in ["--cap-add", "--memory", "--cpus", "--tmpfs", "--dns", "--network"]
    ensures ReadOptions(Tagged(flag, values) + rest, l) == ReadOptions(rest, l.(machine := Fit(l.machine, flag, values)))
  {
    assert flag[2] !in ['n', 'v', 'l', 'e'] || |flag| == 9;
    assert Take(l, flag, values) == l.(machine := Fit(l.machine, flag, values));
    TaggedReads(flag, values, rest, l);
  }

  lemma FitsApart(m: Machine, values: seq<string>)
    ensures Fit(m, "--network", values) == m.(network := m.network + values)
    ensures Fit(m, "--memory", values) == m.(memory := m.memory + values)
    ensures Fit(m, "--cpus", values) == m.(cpus := m.cpus + values)
    ensures Fit(m, "--dns", values) == m.(dns := m.dns + values)
    ensures Fit(m, "--cap-add", values) == m.(caps := m.caps + values)
    ensures Fit(m, "--tmpfs", values) == m.(scratch := m.scratch + values)
  {
    assert "--network"[2] == 'n' && "--cap-add"[2] == 'c';
  }

  lemma NameReads(values: seq<string>, rest: seq<string>, l: Launch)
    ensures ReadOptions(Tagged("--name", values) + rest, l) == ReadOptions(rest, l.(names := l.names + values))
  {
    TaggedReads("--name", values, rest, l);
  }

  lemma VolumeReads(values: seq<string>, rest: seq<string>, l: Launch)
    ensures ReadOptions(Tagged("--volume", values) + rest, l) == ReadOptions(rest, l.(volumes := l.volumes + values))
  {
    TaggedReads("--volume", values, rest, l);
  }

  lemma LabelReads(values: seq<string>, rest: seq<string>, l: Launch)
    ensures ReadOptions(Tagged("--label", values) + rest, l) == ReadOptions(rest, l.(labels := l.labels + values))
  {
    TaggedReads("--label", values, rest, l);
  }

  lemma EnvReads(values: seq<string>, rest: seq<string>, l: Launch)
    ensures ReadOptions(Tagged("--env", values) + rest, l) == ReadOptions(rest, l.(env := l.env + values))
  {
    TaggedReads("--env", values, rest, l);
  }

  lemma ImageReads(image: string, command: seq<string>, l: Launch)
    requires PlainImage(image)
    ensures ReadOptions([image] + command, l) == Some(l.(image := image, command := command))
  {
    assert ([image] + command)[1..] == command;
    assert !Valued(image) && image != "--detach";
  }

  /** The host side of a mount: what precedes the first colon. */
  function MountSource(volume: string): string {
    Before(volume, ':')
  }

  /** The container side of a mount: what stands between the first and the second colon. */
  function MountTarget(volume: string): string {
    var source := Before(volume, ':');
    if |source| < |volume| then Before(volume[|source| + 1..], ':') else ""
  }

  /** The named volume a container mounts: its first mount whose source is not a path. */
  function NamedVolume(volumes: seq<string>): Option<string> {
    if volumes == [] then None
    else
      var source := MountSource(volumes[0]);
      if source != "" && source[0] != '/' then Some(source) else NamedVolume(volumes[1..])
  }

  /** Where a container finds its named volume. */
  function VolumeTarget(volumes: seq<string>): Option<string> {
    if volumes == [] then None
    else
      var source := MountSource(volumes[0]);
      if source != "" && source[0] != '/' then Some(MountTarget(volumes[0])) else VolumeTarget(volumes[1..])
  }

  /** The host directory mounted at a path inside the container. */
  function MountedAt(volumes: seq<string>, target: string): Option<string> {
    if volumes == [] then None
    else if MountTarget(volumes[0]) == target then Some(MountSource(volumes[0]))
    else MountedAt(volumes[1..], target)
  }

  /** The host directory a container reads its datastore TLS files from. */
  function TLSSource(volumes: seq<string>): Option<string> {
    MountedAt(volumes, ETCD_TLS_MOUNT)
  }

  /** The value of a label; key ends in '='. */
  function LabelValue(labels: seq<string>, key: string): Option<string> {
    if labels == [] then None
    else match CutPrefix(labels[0], key)
      case Some(value) => Some(value)
      case None => LabelValue(labels[1..], key)
  }

  function NodeLabels(c: string, role: Role): seq<string> {
    [OWNED_LABEL, CLUSTER_KEY + c, ROLE_KEY + role.Text()]
  }

  /** volumeLabels. */
  function VolumeLabels(c: string): seq<string> {
    [CLUSTER_KEY + c, OWNED_LABEL]
  }

  lemma LabelsRead(c: string, role: Role)
    ensures LabelValue(NodeLabels(c, role), CLUSTER_KEY) == Some(c)
    ensures LabelValue(NodeLabels(c, role), ROLE_KEY) == Some(role.Text())
    ensures LabelValue(VolumeLabels(c), CLUSTER_KEY) == Some(c)
  {
    var labels := NodeLabels(c, role);
    assert OWNED_LABEL[4] == 'o' && CLUSTER_KEY[4] == 'c' && ROLE_KEY[4] == 'r';
    assert !(CLUSTER_KEY <= OWNED_LABEL) && !(ROLE_KEY <= OWNED_LABEL);
    assert !(ROLE_KEY <= CLUSTER_KEY + c) by { assert (CLUSTER_KEY + c)[4] == 'c'; }
    assert (CLUSTER_KEY + c)[|CLUSTER_KEY|..] == c;
    assert (ROLE_KEY + role.Text())[|ROLE_KEY|..] == role.Text();
    var tail := labels[1..];
    assert tail == [CLUSTER_KEY + c, ROLE_KEY + role.Text()];
    assert tail[1..] == [ROLE_KEY + role.Text()];
    assert LabelValue(tail[1..], ROLE_KEY) == Some(role.Text());
    assert CutPrefix(tail[0], ROLE_KEY) == None;
    assert LabelValue(tail, ROLE_KEY) == Some(role.Text());
    assert LabelValue(tail, CLUSTER_KEY) == Some(c);
  }

  // ---------------------------------------------------------------------------------------
  // The k3s node vector
  // ---------------------------------------------------------------------------------------

  /** filepath.Base of a path that does not end in a slash. */
  function Base(path: string): string {
    if path == "" || path[|path| - 1] == '/' then "" else Base(path[..|path| - 1]) + [path[|path| - 1]]
  }

  function ManifestMount(path: string): string {
    path + ":" + (MANIFESTS_DIR + "/" + Base(path))
  }

  function ManifestMounts(paths: seq<string>): (r: seq<string>)
    ensures |r| == |paths|
  {
    seq(|paths|, i requires 0 <= i < |paths| => ManifestMount(paths[i]))
  }

  /** manifestMountArgs. */
  method ManifestMountArgs(paths: seq<string>) returns (args: seq<string>)
    ensures args == Tagged("--volume", ManifestMounts(paths))
  {
    args := [];
    for i := 0 to |paths|
      invariant args == Tagged("--volume", ManifestMounts(paths[..i]))
    {
      var target := MANIFESTS_DIR + "/" + Base(paths[i]);
      assert paths[i] + ":" + target == ManifestMount(paths[i]);
      assert ManifestMounts(paths[..i + 1])[..i] == ManifestMounts(paths[..i]);
      args := args + ["--volume", paths[i] + ":" + target];
    }
    assert paths[..|paths|] == paths;
  }

  function MemoryValues(memory: int): seq<string> {
    if memory > 0 then [DecInt(memory / MIB) + "MB"] else []
  }

  function CpuValues(nano: int): seq<string> {
    if nano > 0 then [DecInt(nano / GIGA)] else []
  }

  function When(condition: bool, values: seq<string>): seq<string> {
    if condition then values else []
  }

  function DataMount(c: string, node: string): string {
    NodeVolumeName(c, node) + ":" + K3S_MOUNT
  }

  /** What a server mounts for its kubeconfig and manifests. */
  function KubeMounts(cfg: ClusterConfig, kubeDir: string): seq<string> {
    When(kubeDir != "", [kubeDir + ":" + KUBECONFIG_MOUNT] + ManifestMounts(cfg.manifests))
  }

  /** The directory mounts of a server, after its data volume. */
  function ServerMounts(cfg: ClusterConfig, node: NodeConfig, kubeDir: string): seq<string> {
    if node.role.Server? then
      KubeMounts(cfg, kubeDir)
      + When(cfg.datastoreTLSDir != "", [cfg.datastoreTLSDir + ":" + ETCD_TLS_RO])
    else []
  }

  function NodeEnv(cfg: ClusterConfig, node: NodeConfig, serverURL: string): seq<string> {
    ["K3S_TOKEN=" + cfg.token] + When(node.role.Agent?, ["K3S_URL=" + serverURL]) + cfg.envVars
  }

  function CAMounts(cfg: ClusterConfig): seq<string> {
    When(cfg.caDir != "", [cfg.caDir + ":" + CA_MOUNT + ":ro"])
  }

  function CAEnv(cfg: ClusterConfig): seq<string> {
    When(cfg.caDir != "", ["SSL_CERT_FILE=" + CA_BUNDLE_PATH])
  }

  /** The --tls-san names a server is started with. */
  function ServerSANs(cfg: ClusterConfig, node: NodeConfig, domain: string): seq<string> {
    if domain == "" then []
    else [NodeFQDN(node.name, domain)] + When(cfg.datastoreEndpoint != "", [ClusterAPIFQDN(cfg.name, domain)])
  }

  /** The server flags before the certificate names. */
  function ServerFront(cfg: ClusterConfig, kubeDir: string): seq<string> {
    ["--flannel-backend=host-gw"]
    + When(cfg.datastoreEndpoint != "", ["--datastore-endpoint=" + cfg.datastoreEndpoint])
    + When(cfg.datastoreTLSDir != "", [
        "--datastore-cafile=" + ETCD_TLS_MOUNT + "/ca.crt",
        "--datastore-certfile=" + ETCD_TLS_MOUNT + "/client.crt",
        "--datastore-keyfile=" + ETCD_TLS_MOUNT + "/client.key"])
    + When(kubeDir != "", ["--write-kubeconfig", KUBECONFIG_PATH, "--write-kubeconfig-mode", "0644"])
  }

  function ServerFlags(cfg: ClusterConfig, node: NodeConfig, domain: string, kubeDir: string): seq<string> {
    ServerFront(cfg, kubeDir) + Tagged("--tls-san", ServerSANs(cfg, node, domain))
  }

  function NodeCommand(cfg: ClusterConfig, node: NodeConfig, domain: string, kubeDir: string): seq<string> {
    [node.role.Text()]
    + When(node.role.Server?, ServerFlags(cfg, node, domain, kubeDir))
    + Tagged("--node-label", node.labels)
    + node.extraArgs
  }

  /** Name, capabilities, size and scratch mounts. */
  function NodeSizing(node: NodeConfig, domain: string, rest: seq<string>): seq<string> {
    Tagged("--name", [NodeFQDN(node.name, domain)]) + (
    Tagged("--cap-add", ["ALL"]) + (
    Tagged("--memory", MemoryValues(node.memory)) + (
    Tagged("--cpus", CpuValues(node.nanoCPUs)) + (
    Tagged("--tmpfs", ["/run", "/tmp"]) + rest))))
  }

  /** Mounts, labels and environment. */
  function NodeSetting(cfg: ClusterConfig, node: NodeConfig, serverURL: string, kubeDir: string, rest: seq<string>): seq<string> {
    Tagged("--volume", [DataMount(cfg.name, node.name)]) + (
    Tagged("--volume", ServerMounts(cfg, node, kubeDir)) + (
    Tagged("--label", NodeLabels(cfg.name, node.role)) + (
    Tagged("--env", NodeEnv(cfg, node, serverURL)) + rest)))
  }

  /** Network options. */
  function NodeNetwork(cfg: ClusterConfig, rest: seq<string>): seq<string> {
    Tagged("--dns", cfg.dnsServers) + (
    Tagged("--volume", CAMounts(cfg)) + (
    Tagged("--env", CAEnv(cfg)) + (
    Tagged("--network", When(cfg.network != "", [cfg.network])) + rest)))
  }

  /** The vector that launches a k3s node. */
  function NodeRunArgs(cfg: ClusterConfig, node: NodeConfig, serverURL: string, domain: string, kubeDir: string): seq<string> {
    ["run", "--detach"] +
    NodeSizing(node, domain,
    NodeSetting(cfg, node, serverURL, kubeDir,
    NodeNetwork(cfg,
    [cfg.image] + NodeCommand(cfg, node, domain, kubeDir))))
  }

  /** What the CLI makes of that vector. */
  function NodeLaunch(cfg: ClusterConfig, node: NodeConfig, serverURL: string, domain: string, kubeDir: string): Launch {
    Launch(
      [NodeFQDN(node.name, domain)],
      [DataMount(cfg.name, node.name)] + ServerMounts(cfg, node, kubeDir) + CAMounts(cfg),
      NodeLabels(cfg.name, node.role),
      NodeEnv(cfg, node, serverURL) + CAEnv(cfg),
      cfg.image,
      NodeCommand(cfg, node, domain, kubeDir),
      Machine(true, When(cfg.network != "", [cfg.network]), MemoryValues(node.memory), CpuValues(node.nanoCPUs), cfg.dnsServers,
              ["ALL"], ["/run", "/tmp"]))
  }

  lemma SizesRead(caps: seq<string>, memory: seq<string>, cpus: seq<string>, tmpfs: seq<string>, rest: seq<string>, l: Launch)
    requires l.machine.caps == l.machine.memory == l.machine.cpus == l.machine.scratch == []
    ensures ReadOptions(
              Tagged("--cap-add", caps) + (Tagged("--memory", memory) + (Tagged("--cpus", cpus) + (Tagged("--tmpfs", tmpfs) + rest))), l)
         == ReadOptions(rest, l.(machine := l.machine.(caps := caps, memory := memory, cpus := cpus, scratch := tmpfs)))
  {
    var r3 := Tagged("--tmpfs", tmpfs) + rest;
    var r2 := Tagged("--cpus", cpus) + r3;
    var r1 := Tagged("--memory", memory) + r2;
    var m0 := l.machine;
    var m1 := m0.(caps := caps);
    var m2 := m1.(memory := memory);
    var m3 := m2.(cpus := cpus);
    assert [] + caps == caps && [] + memory == memory && [] + cpus == cpus && [] + tmpfs == tmpfs;
    FitsApart(m0, caps);
    FitReads("--cap-add", caps, r1, l);
    FitsApart(m1, memory);
    FitReads("--memory", memory, r2, l.(machine := m1));
    FitsApart(m2, cpus);
    FitReads("--cpus", cpus, r3, l.(machine := m2));
    FitsApart(m3, tmpfs);
    FitReads("--tmpfs", tmpfs, rest, l.(machine := m3));
  }

  /** The reading of a node's name and size. */
  function Sized(node: NodeConfig, domain: string): Launch {
    NoOptions(true).(names := [NodeFQDN(node.name, domain)],
      machine := Machine(true, [], MemoryValues(node.memory), CpuValues(node.nanoCPUs), [], ["ALL"], ["/run", "/tmp"]))
  }

  lemma SizingReads(node: NodeConfig, domain: string, rest: seq<string>)
    ensures ReadOptions(NodeSizing(node, domain, rest), NoOptions(true)) == ReadOptions(rest, Sized(node, domain))
  {
    var names, l := [NodeFQDN(node.name, domain)], NoOptions(true);
    var sizes := Tagged("--cap-add", ["ALL"]) + (
      Tagged("--memory", MemoryValues(node.memory)) + (
      Tagged("--cpus", CpuValues(node.nanoCPUs)) + (
      Tagged("--tmpfs", ["/run", "/tmp"]) + rest)));
    NameReads(names, sizes, l);
    assert l.names + names == names;
    SizesRead(["ALL"], MemoryValues(node.memory), CpuValues(node.nanoCPUs), ["/run", "/tmp"], rest, l.(names := names));
  }

  lemma SettingsRead(data: seq<string>, mounts: seq<string>, labels: seq<string>, env: seq<string>, rest: seq<string>, l: Launch)
    requires l.volumes == [] && l.labels == [] && l.env == []
    ensures ReadOptions(
              Tagged("--volume", data) + (Tagged("--volume", mounts) + (Tagged("--label", labels) + (Tagged("--env", env) + rest))), l)
         == ReadOptions(rest, l.(volumes := data + mounts, labels := labels, env := env))
  {
    var r3 := Tagged("--env", env) + rest;
    var r2 := Tagged("--label", labels) + r3;
    var r1 := Tagged("--volume", mounts) + r2;
    assert [] + data == data && [] + labels == labels && [] + env == env;
    VolumeReads(data, r1, l);
    VolumeReads(mounts, r2, l.(volumes := data));
    LabelReads(labels, r3, l.(volumes := data + mounts));
    EnvReads(env, rest, l.(volumes := data + mounts, labels := labels));
  }

  lemma SettingReads(cfg: ClusterConfig, node: NodeConfig, serverURL: string, kubeDir: string, rest: seq<string>, l: Launch)
    requires l.volumes == [] && l.labels == [] && l.env == []
    ensures ReadOptions(NodeSetting(cfg, node, serverURL, kubeDir, rest), l)
         == ReadOptions(rest, l.(volumes := [DataMount(cfg.name, node.name)] + ServerMounts(cfg, node, kubeDir),
                                 labels := NodeLabels(cfg.name, node.role), env := NodeEnv(cfg, node, serverURL)))
  {
    SettingsRead([DataMount(cfg.name, node.name)], ServerMounts(cfg, node, kubeDir),
                 NodeLabels(cfg.name, node.role), NodeEnv(cfg, node, serverURL), rest, l);
  }

  lemma NetworkReads(cfg: ClusterConfig, rest: seq<string>, l: Launch)
    requires l.machine.dns == l.machine.network == []
    ensures ReadOptions(NodeNetwork(cfg, rest), l)
         == ReadOptions(rest, l.(volumes := l.volumes + CAMounts(cfg), env := l.env + CAEnv(cfg),
                                 machine := l.machine.(dns := cfg.dnsServers, network := When(cfg.network != "", [cfg.network]))))
  {
    var nets := When(cfg.network != "", [cfg.network]);
    var r3 := Tagged("--network", nets) + rest;
    var r2 := Tagged("--env", CAEnv(cfg)) + r3;
    var r1 := Tagged("--volume", CAMounts(cfg)) + r2;
    var m1 := l.machine.(dns := cfg.dnsServers);
    var l1 := l.(machine := m1);
    var l2 := l1.(volumes := l.volumes + CAMounts(cfg));
    assert [] + cfg.dnsServers == cfg.dnsServers && [] + nets == nets;
    FitsApart(l.machine, cfg.dnsServers);
    FitReads("--dns", cfg.dnsServers, r1, l);
    VolumeReads(CAMounts(cfg), r2, l1);
    EnvReads(CAEnv(cfg), r3, l2);
    FitsApart(m1, nets);
    FitReads("--network", nets, rest, l2.(env := l.env + CAEnv(cfg)));
  }

  lemma DetachReads(rest: seq<string>)
    ensures ReadRun(["run", "--detach"] + rest) == ReadOptions(rest, NoOptions(true))
  {
    var args := ["run", "--detach"] + rest;
    assert args[1..][0] == "--detach" && args[1..][1..] == rest;
  }

  /** The CLI reads back exactly the node that was asked for, whatever the operator's
      environment, labels and extra arguments hold. */
  lemma NodeRunReads(cfg: ClusterConfig, node: NodeConfig, serverURL: string, domain: string, kubeDir: string)
    requires PlainImage(cfg.image)
    ensures ReadRun(NodeRunArgs(cfg, node, serverURL, domain, kubeDir)) == Some(NodeLaunch(cfg, node, serverURL, domain, kubeDir))
  {
    var command := NodeCommand(cfg, node, domain, kubeDir);
    var r3 := [cfg.image] + command;
    var r2 := NodeNetwork(cfg, r3);
    var r1 := NodeSetting(cfg, node, serverURL, kubeDir, r2);
    DetachReads(NodeSizing(node, domain, r1));
    SizingReads(node, domain, r1);
    var l1 := Sized(node, domain);
    SettingReads(cfg, node, serverURL, kubeDir, r2, l1);
    var l2 := l1.(volumes := [DataMount(cfg.name, node.name)] + ServerMounts(cfg, node, kubeDir),
                  labels := NodeLabels(cfg.name, node.role), env := NodeEnv(cfg, node, serverURL));
    NetworkReads(cfg, r3, l2);
    var m := l2.machine.(dns := cfg.dnsServers, network := When(cfg.network != "", [cfg.network]));
    ImageReads(cfg.image, command, l2.(volumes := l2.volumes + CAMounts(cfg), env := l2.env + CAEnv(cfg), machine := m));
  }

  lemma TaggedSnoc(flag: string, values: seq<string>, i: nat)
    requires i < |values|
    ensures Tagged(flag, values[..i + 1]) == Tagged(flag, values[..i]) + [flag, values[i]]
  {
    assert values[..i + 1][..i] == values[..i];
  }

  lemma {:induction false} TaggedCat(flag: string, a: seq<string>, b: seq<string>)
    ensures Tagged(flag, a + b) == Tagged(flag, a) + Tagged(flag, b)
  {
    if b == [] {
      assert a + b == a;
      assert Tagged(flag, a) + [] == Tagged(flag, a);
    } else {
      var init := b[..|b| - 1];
      assert (a + b)[..|a + b| - 1] == a + init;
      TaggedCat(flag, a, init);
      assert Tagged(flag, a) + Tagged(flag, b) == (Tagged(flag, a) + Tagged(flag, init)) + [flag, b[|b| - 1]];
    }
  }

  /** One flag with one value. */
  lemma TaggedOne(flag: string, value: string)
    ensures Tagged(flag, [value]) == [flag, value]
  {
    assert [value][..0] == [];
  }

  /** The flag once per element, appended as the source's loops do. */
  method AppendTagged(args: seq<string>, flag: string, values: seq<string>) returns (r: seq<string>)
    ensures r == args + Tagged(flag, values)
  {
    r := args;
    for i := 0 to |values|
      invariant r == args + Tagged(flag, values[..i])
    {
      TaggedSnoc(flag, values, i);
      r := r + [flag, values[i]];
    }
    assert values[..|values|] == values;
  }

  method BuildSANs(cfg: ClusterConfig, node: NodeConfig, domain: string) returns (args: seq<string>)
    ensures args == Tagged("--tls-san", ServerSANs(cfg, node, domain))
  {
    args := [];
    if domain != "" {
      var own := NodeFQDN(node.name, domain);
      TaggedOne("--tls-san", own);
      args := args + ["--tls-san", own];
      if cfg.datastoreEndpoint != "" {
        var shared := ClusterAPIFQDN(cfg.name, domain);
        TaggedOne("--tls-san", shared);
        TaggedCat("--tls-san", [own], [shared]);
        args := args + ["--tls-san", shared];
      }
    }
  }

  /** The server section of buildRunArgs. */
  method BuildServerFlags(cfg: ClusterConfig, node: NodeConfig, domain: string, kubeDir: string) returns (args: seq<string>)
    ensures args == ServerFlags(cfg, node, domain, kubeDir)
  {
    var endpoint, tls, kubeconfig := [], [], [];
    if cfg.datastoreEndpoint != "" {
      endpoint := ["--datastore-endpoint=" + cfg.datastoreEndpoint];
    }
    if cfg.datastoreTLSDir != "" {
      tls := [
        "--datastore-cafile=" + ETCD_TLS_MOUNT + "/ca.crt",
        "--datastore-certfile=" + ETCD_TLS_MOUNT + "/client.crt",
        "--datastore-keyfile=" + ETCD_TLS_MOUNT + "/client.key"];
    }
    if kubeDir != "" {
      kubeconfig := ["--write-kubeconfig", KUBECONFIG_PATH, "--write-kubeconfig-mode", "0644"];
    }
    var sans := BuildSANs(cfg, node, domain);
    args := ["--flannel-backend=host-gw"] + endpoint + tls + kubeconfig + sans;
  }

  method BuildSizing(start: seq<string>, node: NodeConfig, domain: string, ghost rest: seq<string>) returns (args: seq<string>)
    ensures args + rest == start + NodeSizing(node, domain, rest)
  {
    var name := NodeFQDN(node.name, domain);
    args := AppendTagged(start, "--name", [name]);
    args := AppendTagged(args, "--cap-add", ["ALL"]);
    if node.memory > 0 {
      args := AppendTagged(args, "--memory", [DecInt(node.memory / MIB) + "MB"]);
    } else {
      assert args + Tagged("--memory", []) == args;
    }
    assert args == start + Tagged("--name", [name]) + Tagged("--cap-add", ["ALL"]) + Tagged("--memory", MemoryValues(node.memory));
    ghost var sized := args;
    if node.nanoCPUs > 0 {
      args := AppendTagged(args, "--cpus", [DecInt(node.nanoCPUs / GIGA)]);
    } else {
      assert args + Tagged("--cpus", []) == args;
    }
    assert args == sized + Tagged("--cpus", CpuValues(node.nanoCPUs));
    args := AppendTagged(args, "--tmpfs", ["/run", "/tmp"]);
    Regroup(start, Tagged("--name", [name]), Tagged("--cap-add", ["ALL"]), Tagged("--memory", MemoryValues(node.memory)),
            Tagged("--cpus", CpuValues(node.nanoCPUs)), Tagged("--tmpfs", ["/run", "/tmp"]) + rest);
    Together(sized + Tagged("--cpus", CpuValues(node.nanoCPUs)), Tagged("--tmpfs", ["/run", "/tmp"]), rest);
  }

  lemma Together(a: seq<string>, b: seq<string>, c: seq<string>)
    ensures a + b + c == a + (b + c)
  {
  }

  method BuildSetting(start: seq<string>, cfg: ClusterConfig, node: NodeConfig, serverURL: string, kubeDir: string, ghost rest: seq<string>)
    returns (args: seq<string>)
    ensures args + rest == start + NodeSetting(cfg, node, serverURL, kubeDir, rest)
  {
    args := AppendTagged(start, "--volume", [DataMount(cfg.name, node.name)]);
    var mounts := BuildServerMounts(cfg, node, kubeDir);
    args := args + mounts;
    args := AppendTagged(args, "--label", NodeLabels(cfg.name, node.role));
    var env := BuildEnv(cfg, node, serverURL);
    args := AppendTagged(args, "--env", env);
    Regroup(start, Tagged("--volume", [DataMount(cfg.name, node.name)]), mounts,
            Tagged("--label", NodeLabels(cfg.name, node.role)), Tagged("--env", env), rest);
  }

  lemma Regroup(s: seq<string>, a: seq<string>, b: seq<string>, c: seq<string>, d: seq<string>, rest: seq<string>)
    ensures s + a + b + c + d + rest == s + (a + (b + (c + (d + rest))))
  {
  }

  method BuildEnv(cfg: ClusterConfig, node: NodeConfig, serverURL: string) returns (env: seq<string>)
    ensures env == NodeEnv(cfg, node, serverURL)
  {
    env := ["K3S_TOKEN=" + cfg.token];
    if node.role.Agent? {
      env := env + ["K3S_URL=" + serverURL];
    }
    env := env + cfg.envVars;
  }

  method BuildServerMounts(cfg: ClusterConfig, node: NodeConfig, kubeDir: string) returns (args: seq<string>)
    ensures args == Tagged("--volume", ServerMounts(cfg, node, kubeDir))
  {
    args := [];
    ghost var mounts: seq<string> := [];
    if node.role.Server? && kubeDir != "" {
      var kubeconfig := kubeDir + ":" + KUBECONFIG_MOUNT;
      TaggedOne("--volume", kubeconfig);
      var manifests := ManifestMountArgs(cfg.manifests);
      TaggedCat("--volume", [kubeconfig], ManifestMounts(cfg.manifests));
      args := ["--volume", kubeconfig] + manifests;
      mounts := [kubeconfig] + ManifestMounts(cfg.manifests);
    }
    if node.role.Server? && cfg.datastoreTLSDir != "" {
      var tls := cfg.datastoreTLSDir + ":" + ETCD_TLS_RO;
      TaggedOne("--volume", tls);
      TaggedCat("--volume", mounts, [tls]);
      args := args + ["--volume", tls];
      mounts := mounts + [tls];
    }
    assert mounts == ServerMounts(cfg, node, kubeDir);
  }

  method BuildNetwork(start: seq<string>, cfg: ClusterConfig, ghost rest: seq<string>) returns (args: seq<string>)
    ensures args + rest == start + NodeNetwork(cfg, rest)
  {
    args := AppendTagged(start, "--dns", cfg.dnsServers);
    if cfg.caDir != "" {
      args := AppendTagged(args, "--volume", [cfg.caDir + ":" + CA_MOUNT + ":ro"]);
      args := AppendTagged(args, "--env", ["SSL_CERT_FILE=" + CA_BUNDLE_PATH]);
    }
    if cfg.network != "" {
      args := AppendTagged(args, "--network", [cfg.network]);
    }
  }

  method BuildCommand(cfg: ClusterConfig, node: NodeConfig, domain: string, kubeDir: string) returns (args: seq<string>)
    ensures args == NodeCommand(cfg, node, domain, kubeDir)
  {
    args := [node.role.Text()];
    if node.role.Server? {
      var flags := BuildServerFlags(cfg, node, domain, kubeDir);
      args := args + flags;
    }
    args := AppendTagged(args, "--node-label", node.labels);
    args := args + node.extraArgs;
  }

  // ---------------------------------------------------------------------------------------
  // The other vectors
  // ---------------------------------------------------------------------------------------

  /** Go's integer division, which truncates toward zero. */
  function TruncDiv(a: int, b: int): int
    requires b > 0
  {
    if a < 0 then -((-a) / b) else a / b
  }

  /** A vector of the shape the etcd, load-balancer and one-shot containers share. */
  function SimpleRunArgs(detach: bool, name: string, memory: seq<string>, volumes: seq<string>, labels: seq<string>,
                         env: seq<string>, network: string, image: string, command: seq<string>): seq<string> {
    (if detach then ["run", "--detach"] else ["run"]) + (
    Tagged("--name", [name]) + (
    Tagged("--memory", memory) + (
    Tagged("--volume", volumes) + (
    Tagged("--label", labels) + (
    Tagged("--env", env) + (
    Tagged("--network", When(network != "", [network])) + (
    [image] + command)))))))
  }

  function SimpleMachine(detached: bool, memory: seq<string>, network: string): Machine {
    Machine(detached, When(network != "", [network]), memory, [], [], [], [])
  }

  lemma SimpleRunReads(detach: bool, name: string, memory: seq<string>, volumes: seq<string>, labels: seq<string>,
                       env: seq<string>, network: string, image: string, command: seq<string>)
    requires PlainImage(image)
    ensures ReadRun(SimpleRunArgs(detach, name, memory, volumes, labels, env, network, image, command))
         == Some(Launch([name], volumes, labels, env, image, command, SimpleMachine(detach, memory, network)))
  {
    var nets := When(network != "", [network]);
    var r6 := [image] + command;
    var r5 := Tagged("--network", nets) + r6;
    var r4 := Tagged("--env", env) + r5;
    var r3 := Tagged("--label", labels) + r4;
    var r2 := Tagged("--volume", volumes) + r3;
    var r1 := Tagged("--memory", memory) + r2;
    var r0 := Tagged("--name", [name]) + r1;
    assert ["run"] + r0 == ["run"] + r0 && (["run"] + r0)[1..] == r0;
    if detach {
      DetachReads(r0);
    }
    var l := NoOptions(detach);
    assert l.names + [name] == [name] && [] + volumes == volumes && [] + labels == labels && [] + env == env;
    assert [] + memory == memory && [] + nets == nets;
    NameReads([name], r1, l);
    FitsApart(l.machine, memory);
    FitReads("--memory", memory, r2, l.(names := [name]));
    var l1 := l.(names := [name], machine := l.machine.(memory := memory));
    VolumeReads(volumes, r3, l1);
    LabelReads(labels, r4, l1.(volumes := volumes));
    EnvReads(env, r5, l1.(volumes := volumes, labels := labels));
    var full := l1.(volumes := volumes, labels := labels, env := env);
    FitsApart(full.machine, nets);
    FitReads("--network", nets, r6, full);
    ImageReads(image, command, full.(machine := full.machine.(network := nets)));
  }

  /** etcdImageOf. */
  function EtcdImage(cfg: ClusterConfig): string {
    if cfg.datastoreImage == "" then DEFAULT_ETCD_IMAGE else cfg.datastoreImage
  }

  function EtcdPeerURL(fqdn: string): string { HttpsURL(fqdn, ETCD_PEER_PORT) }

  function EtcdClientURL(fqdn: string): string { HttpsURL(fqdn, ETCD_CLIENT_PORT) }

  function EtcdTLSFlags(): seq<string> {
    ["--peer-cert-file", ETCD_TLS_MOUNT + "/server.crt", "--peer-key-file", ETCD_TLS_MOUNT + "/server.key",
     "--peer-trusted-ca-file", ETCD_TLS_MOUNT + "/ca.crt", "--peer-client-cert-auth=true",
     "--cert-file", ETCD_TLS_MOUNT + "/server.crt", "--key-file", ETCD_TLS_MOUNT + "/server.key",
     "--trusted-ca-file", ETCD_TLS_MOUNT + "/ca.crt", "--client-cert-auth=true"]
  }

  function EtcdCommand(c: string, member: string, domain: string, mesh: string): seq<string> {
    var fqdn := NodeFQDN(member, domain);
    [ETCD_BINARY,
     "--name", member,
     "--data-dir", ETCD_DATA_DIR,
     "--listen-peer-urls", "https://0.0.0.0:" + ETCD_PEER_PORT,
     "--listen-client-urls", "https://0.0.0.0:" + ETCD_CLIENT_PORT,
     "--initial-advertise-peer-urls", EtcdPeerURL(fqdn),
     "--advertise-client-urls", EtcdClientURL(fqdn),
     "--initial-cluster", mesh,
     "--initial-cluster-state", "new",
     "--initial-cluster-token", EtcdClusterToken(c)]
    + EtcdTLSFlags()
  }

  function EtcdVolumes(member: string, tlsDir: string): seq<string> {
    [EtcdVolumeName(member) + ":" + ETCD_DATA_MOUNT, tlsDir + ":" + ETCD_TLS_RO]
  }

  /** buildEtcdRunArgs. */
  function EtcdRunArgs(cfg: ClusterConfig, node: NodeConfig, domain: string, mesh: string, tlsDir: string): seq<string> {
    SimpleRunArgs(true, NodeFQDN(node.name, domain), [DecInt(TruncDiv(node.memory, MIB)) + "MB"],
      EtcdVolumes(node.name, tlsDir), NodeLabels(cfg.name, Datastore), [], cfg.network,
      EtcdImage(cfg), EtcdCommand(cfg.name, node.name, domain, mesh))
  }

  function LBVolumes(configDir: string): seq<string> {
    [configDir + ":" + LB_CONFIG_MOUNT + ":ro"]
  }

  /** buildAPILBRunArgs. */
  function LBRunArgs(cfg: ClusterConfig, domain: string, configDir: string): seq<string> {
    SimpleRunArgs(true, NodeFQDN(ApiLBName(cfg.name), domain), [DecInt(LB_MEMORY / MIB) + "MB"],
      LBVolumes(configDir), NodeLabels(cfg.name, LB), [], cfg.network, API_LB_IMAGE, [])
  }

  /** buildEtcdRestoreArgs. */
  function RestoreArgs(cfg: ClusterConfig, helper: string, member: string, domain: string, mesh: string, snapDir: string, file: string): seq<string> {
    SimpleRunArgs(false, helper, [],
      [EtcdVolumeName(member) + ":" + ETCD_DATA_MOUNT, snapDir + ":" + ETCD_BACKUP_MOUNT + ":ro"], [], ["ETCDCTL_API=3"], "",
      EtcdImage(cfg),
      [ETCDCTL_BINARY, "snapshot", "restore", ETCD_BACKUP_MOUNT + "/" + file,
       "--name", member,
       "--initial-cluster", mesh,
       "--initial-advertise-peer-urls", EtcdPeerURL(NodeFQDN(member, domain)),
       "--initial-cluster-token", EtcdClusterToken(cfg.name),
       "--data-dir", ETCD_DATA_DIR])
  }

  /** buildEtcdVerifyArgs. */
  function VerifyArgs(cfg: ClusterConfig, helper: string, fqdn: string, tlsDir: string, key: string): seq<string> {
    SimpleRunArgs(false, helper, [], [tlsDir + ":" + ETCD_TLS_RO], [], ["ETCDCTL_API=3"], cfg.network,
      EtcdImage(cfg),
      [ETCDCTL_BINARY, "--endpoints=" + EtcdClientURL(fqdn),
       "--cacert", ETCD_TLS_MOUNT + "/ca.crt", "--cert", ETCD_TLS_MOUNT + "/client.crt", "--key", ETCD_TLS_MOUNT + "/client.key",
       "get", key, "--keys-only"])
  }

  /** buildK3sCertRotateArgs. */
  function CertRotateArgs(cfg: ClusterConfig, node: string): seq<string> {
    SimpleRunArgs(false, CertRotateHelper(node), [], [DataMount(cfg.name, node)], [], [], cfg.network,
      cfg.image, ["certificate", "rotate", "--data-dir", K3S_MOUNT])
  }

  /** k3sTokenRotateExecArgs. */
  function TokenRotateArgs(held: string, token: string): seq<string> {
    ["k3s", "token", "rotate", "--token", held, "--new-token", token]
  }

  // ---------------------------------------------------------------------------------------
  // What the readings say
  // ---------------------------------------------------------------------------------------

  /** An absolute host path a mount can be built from. */
  predicate HostPath(path: string) {
    path != "" && path[0] == '/' && ':' !in path
  }

  lemma NamedSource(name: string, target: string)
    requires CleanText(name) && name != ""
    ensures MountSource(name + ":" + target) == name && name[0] != '/'
  {
    assert !NameChar(':') && !NameChar('/');
    BeforeSeparator(name, ':', target);
    assert name + ":" + target == name + [':'] + target;
  }

  lemma PathSource(path: string, target: string)
    requires HostPath(path)
    ensures MountSource(path + ":" + target) == path
    ensures MountTarget(path + ":" + target) == Before(target, ':')
  {
    BeforeSeparator(path, ':', target);
    assert path + ":" + target == path + [':'] + target;
    assert (path + ":" + target)[|path| + 1..] == target;
  }

  lemma FirstNamed(volumes: seq<string>, name: string, target: string)
    requires volumes != [] && volumes[0] == name + ":" + target && CleanText(name) && name != ""
    ensures NamedVolume(volumes) == Some(name)
  {
    NamedSource(name, target);
  }

  lemma OnlyPaths(path: string, target: string)
    requires HostPath(path)
    ensures NamedVolume([path + ":" + target]) == None
  {
    PathSource(path, target);
  }

  /** Each container the launcher runs mounts the named volume it should. */
  lemma LaunchVolumes(cfg: ClusterConfig, node: NodeConfig, serverURL: string, domain: string, kubeDir: string, tlsDir: string)
    ensures NamedVolume(NodeLaunch(cfg, node, serverURL, domain, kubeDir).volumes) == Some(NodeVolumeName(cfg.name, node.name))
    ensures NamedVolume(EtcdVolumes(node.name, tlsDir)) == Some(EtcdVolumeName(node.name))
  {
    FirstNamed(NodeLaunch(cfg, node, serverURL, domain, kubeDir).volumes, NodeVolumeName(cfg.name, node.name), K3S_MOUNT);
    FirstNamed(EtcdVolumes(node.name, tlsDir), EtcdVolumeName(node.name), ETCD_DATA_MOUNT);
  }

  lemma TLSTarget()
    ensures Before(ETCD_TLS_RO, ':') == ETCD_TLS_MOUNT
  {
    BeforeSeparator(ETCD_TLS_MOUNT, ':', "ro");
    assert ETCD_TLS_RO == ETCD_TLS_MOUNT + [':'] + "ro";
  }

  lemma OtherTargets()
    ensures ':' !in ETCD_DATA_MOUNT && ':' !in K3S_MOUNT && ':' !in KUBECONFIG_MOUNT
    ensures ETCD_DATA_MOUNT != ETCD_TLS_MOUNT && K3S_MOUNT != ETCD_TLS_MOUNT && KUBECONFIG_MOUNT != ETCD_TLS_MOUNT
  {
    assert ETCD_TLS_MOUNT[1] == 'e' && ETCD_DATA_MOUNT[1] == 'd' && K3S_MOUNT[1] == 'v' && KUBECONFIG_MOUNT[1] == 'm';
  }

  lemma {:induction false} BeforeKeepsFront(a: string, b: string, c: char)
    requires c !in a
    ensures a <= Before(a + b, c)
  {
    if a != "" {
      assert (a + b)[1..] == a[1..] + b;
      BeforeKeepsFront(a[1..], b, c);
      assert Before(a + b, c) == [a[0]] + Before(a[1..] + b, c);
      assert a == [a[0]] + a[1..];
    }
  }

  lemma UnderManifests(target: string)
    requires MANIFESTS_DIR <= target
    ensures target != ETCD_TLS_MOUNT
  {
    assert target[1] == MANIFESTS_DIR[1] == 'v';
    assert ETCD_TLS_MOUNT[1] == 'e';
  }

  lemma Spelled(dir: string, base: string)
    ensures dir + "/" + base == dir + ("/" + base)
  {
  }

  lemma ManifestTarget(path: string)
    requires HostPath(path)
    ensures MountTarget(ManifestMount(path)) != ETCD_TLS_MOUNT
  {
    var inside := "/" + Base(path);
    PathSource(path, MANIFESTS_DIR + inside);
    BeforeKeepsFront(MANIFESTS_DIR, inside, ':');
    UnderManifests(Before(MANIFESTS_DIR + inside, ':'));
    Spelled(MANIFESTS_DIR, Base(path));
  }

  lemma {:induction false} NoTLSBefore(a: seq<string>, b: seq<string>)
    requires forall k | 0 <= k < |a| :: MountTarget(a[k]) != ETCD_TLS_MOUNT
    ensures TLSSource(a + b) == TLSSource(b)
  {
    if a == [] {
      assert a + b == b;
    } else {
      assert (a + b)[1..] == a[1..] + b;
      NoTLSBefore(a[1..], b);
    }
  }

  lemma TLSHead(dir: string, rest: seq<string>)
    requires HostPath(dir)
    ensures TLSSource([dir + ":" + ETCD_TLS_RO] + rest) == Some(dir)
  {
    TLSTarget();
    PathSource(dir, ETCD_TLS_RO);
  }

  lemma DataTarget(name: string, target: string)
    requires CleanText(name) && name != "" && ':' !in target
    ensures MountTarget(name + ":" + target) == target
  {
    NamedSource(name, target);
    assert (name + ":" + target)[|name| + 1..] == target;
    BeforeAbsent(target, ':');
  }

  /** A managed etcd member reads its TLS files from the directory it was given. */
  lemma EtcdLaunchTLS(member: string, tlsDir: string)
    requires HostPath(tlsDir)
    ensures TLSSource(EtcdVolumes(member, tlsDir)) == Some(tlsDir)
  {
    var etcd := EtcdVolumeName(member) + ":" + ETCD_DATA_MOUNT;
    OtherTargets();
    DataTarget(EtcdVolumeName(member), ETCD_DATA_MOUNT);
    TLSHead(tlsDir, []);
    NoTLSBefore([etcd], [tlsDir + ":" + ETCD_TLS_RO] + []);
    assert EtcdVolumes(member, tlsDir) == [etcd] + ([tlsDir + ":" + ETCD_TLS_RO] + []);
  }

  /** The load balancer reads its configuration from the directory it was given. */
  lemma LBLaunchConfig(configDir: string)
    requires HostPath(configDir)
    ensures MountedAt(LBVolumes(configDir), LB_CONFIG_MOUNT) == Some(configDir)
  {
    var target := LB_CONFIG_MOUNT + ":ro";
    assert configDir + ":" + LB_CONFIG_MOUNT + ":ro" == configDir + ":" + target;
    PathSource(configDir, target);
    assert target == LB_CONFIG_MOUNT + [':'] + "ro";
    BeforeSeparator(LB_CONFIG_MOUNT, ':', "ro");
  }

  lemma KubeTarget(kubeDir: string)
    requires HostPath(kubeDir)
    ensures MountTarget(kubeDir + ":" + KUBECONFIG_MOUNT) != ETCD_TLS_MOUNT
  {
    OtherTargets();
    PathSource(kubeDir, KUBECONFIG_MOUNT);
    BeforeAbsent(KUBECONFIG_MOUNT, ':');
  }

  lemma KubeElsewhere(cfg: ClusterConfig, kubeDir: string)
    requires kubeDir == "" || HostPath(kubeDir)
    requires forall m | m in cfg.manifests :: HostPath(m)
    ensures forall k | 0 <= k < |KubeMounts(cfg, kubeDir)| :: MountTarget(KubeMounts(cfg, kubeDir)[k]) != ETCD_TLS_MOUNT
  {
    hide MountTarget;
    var kube := KubeMounts(cfg, kubeDir);
    forall k | 0 <= k < |kube|
      ensures MountTarget(kube[k]) != ETCD_TLS_MOUNT
    {
      if k == 0 {
        KubeTarget(kubeDir);
      } else {
        ManifestTarget(cfg.manifests[k - 1]);
      }
    }
  }

  /** Every server of a managed cluster reads its client TLS files from the directory it was
      given. */
  lemma ServerLaunchTLS(cfg: ClusterConfig, node: NodeConfig, serverURL: string, domain: string, kubeDir: string)
    requires node.role.Server? && HostPath(cfg.datastoreTLSDir)
    requires kubeDir == "" || HostPath(kubeDir)
    requires forall m | m in cfg.manifests :: HostPath(m)
    ensures TLSSource(NodeLaunch(cfg, node, serverURL, domain, kubeDir).volumes) == Some(cfg.datastoreTLSDir)
  {
    OtherTargets();
    DataTarget(NodeVolumeName(cfg.name, node.name), K3S_MOUNT);
    KubeElsewhere(cfg, kubeDir);
    TLSAfter(DataMount(cfg.name, node.name), KubeMounts(cfg, kubeDir), cfg.datastoreTLSDir, CAMounts(cfg));
  }

  lemma CATarget(dir: string)
    requires HostPath(dir)
    ensures MountTarget(dir + ":" + CA_MOUNT + ":ro") == CA_MOUNT != ETCD_TLS_MOUNT
  {
    hide MountTarget;
    var target := CA_MOUNT + ":ro";
    assert dir + ":" + CA_MOUNT + ":ro" == dir + ":" + target;
    PathSource(dir, target);
    assert ':' !in CA_MOUNT && target == CA_MOUNT + [':'] + "ro";
    BeforeSeparator(CA_MOUNT, ':', "ro");
    assert CA_MOUNT[5] == 'k' && ETCD_TLS_MOUNT[5] == 'e';
  }

  /** A server launched without a bundle loads no TLS files, whatever else it mounts. */
  lemma NoServerTLS(cfg: ClusterConfig, node: NodeConfig, serverURL: string, domain: string, kubeDir: string)
    requires node.role.Server? && cfg.datastoreTLSDir == "" && (cfg.caDir == "" || HostPath(cfg.caDir))
    requires kubeDir == "" || HostPath(kubeDir)
    requires forall m | m in cfg.manifests :: HostPath(m)
    ensures TLSSource(NodeLaunch(cfg, node, serverURL, domain, kubeDir).volumes) == None
  {
    hide TLSSource;
    hide NodeEnv;
    hide NodeCommand;
    hide MountTarget;
    hide NodeLabels;
    hide DataMount;
    hide HostPath;
    DataElsewhere(cfg.name, node.name);
    KubeElsewhere(cfg, kubeDir);
    if cfg.caDir != "" {
      CATarget(cfg.caDir);
    }
    var volumes := [DataMount(cfg.name, node.name)] + KubeMounts(cfg, kubeDir) + CAMounts(cfg);
    assert NodeLaunch(cfg, node, serverURL, domain, kubeDir).volumes == volumes;
    NoTLSBefore(volumes, []);
    assert volumes + [] == volumes && TLSSource([]) == None by {
      Unmounted();
    }
  }

  lemma DataElsewhere(c: string, name: string)
    ensures MountTarget(DataMount(c, name)) != ETCD_TLS_MOUNT
  {
    OtherTargets();
    DataTarget(NodeVolumeName(c, name), K3S_MOUNT);
  }

  lemma Unmounted()
    ensures TLSSource([]) == None
  {
  }

  lemma TLSAfter(data: string, kube: seq<string>, dir: string, rest: seq<string>)
    requires HostPath(dir) && MountTarget(data) != ETCD_TLS_MOUNT
    requires forall k | 0 <= k < |kube| :: MountTarget(kube[k]) != ETCD_TLS_MOUNT
    ensures TLSSource([data] + (kube + [dir + ":" + ETCD_TLS_RO]) + rest) == Some(dir)
  {
    var tls := [dir + ":" + ETCD_TLS_RO];
    TLSHead(dir, rest);
    NoTLSBefore(kube, tls + rest);
    NoTLSBefore([data], kube + (tls + rest));
    Together([data], kube + tls, rest);
    Together(kube, tls, rest);
  }

  // ---------------------------------------------------------------------------------------
  // Recreating a node from recorded state
  // ---------------------------------------------------------------------------------------

  /** resolvedImage. */
  function ResolvedImage(image: string): string {
    if image == "" then DEFAULT_K3S_IMAGE else image
  }

  /** The record launchNode keeps of a node. */
  function InfoOf(node: NodeConfig, domain: string, addr: Addr): NodeInfo {
    NodeInfo(NodeFQDN(node.name, domain), node.name, node.role, [addr], node.memory, node.nanoCPUs, node.labels, node.extraArgs)
  }

  /** nodeConfigFromInfo. */
  function NodeConfigFromInfo(info: NodeInfo): NodeConfig {
    NodeConfig(info.name, info.role, info.memory, info.nanoCPUs, info.labels, info.extraArgs)
  }

  /** clusterConfigFromState; tlsDir is the datastore client bundle found on disk, or "". */
  function ConfigFromState(state: ClusterState, tlsDir: string): ClusterConfig {
    ClusterConfig(state.clusterName, ResolvedImage(state.image), state.network, state.token, state.datastoreEndpoint,
                  false, 0, state.datastoreImage, 0, tlsDir, false, [], [], "", [], [])
  }

  lemma SettingLength(cfg: ClusterConfig, node: NodeConfig, serverURL: string, kubeDir: string, rest: seq<string>)
    ensures |NodeSetting(cfg, node, serverURL, kubeDir, rest)|
         == 10 + 2 * |ServerMounts(cfg, node, kubeDir)| + 2 * (if node.role.Agent? then 1 else 0) + 2 * |cfg.envVars| + |rest|
  {
    assert |NodeLabels(cfg.name, node.role)| == 3;
    assert |NodeEnv(cfg, node, serverURL)| == 1 + (if node.role.Agent? then 1 else 0) + |cfg.envVars|;
  }

  lemma NetworkLength(cfg: ClusterConfig, rest: seq<string>)
    ensures |NodeNetwork(cfg, rest)|
         == 2 * |cfg.dnsServers| + (if cfg.caDir != "" then 4 else 0) + (if cfg.network != "" then 2 else 0) + |rest|
  {
    assert |CAMounts(cfg)| == |CAEnv(cfg)| == if cfg.caDir != "" then 1 else 0;
  }

  /** Each extra environment variable, DNS server and CA directory shows in the vector. */
  lemma RunArgsLength(cfg: ClusterConfig, node: NodeConfig, serverURL: string, domain: string, kubeDir: string)
    ensures |NodeRunArgs(cfg, node, serverURL, domain, kubeDir)|
         == 2 + |NodeSizing(node, domain, [])| + 10 + 2 * |ServerMounts(cfg, node, kubeDir)| + 2 * (if node.role.Agent? then 1 else 0)
            + (if cfg.network != "" then 2 else 0) + 1 + |NodeCommand(cfg, node, domain, kubeDir)|
            + 2 * |cfg.envVars| + 2 * |cfg.dnsServers| + (if cfg.caDir != "" then 4 else 0)
  {
    var image := [cfg.image] + NodeCommand(cfg, node, domain, kubeDir);
    var network := NodeNetwork(cfg, image);
    var setting := NodeSetting(cfg, node, serverURL, kubeDir, network);
    NetworkLength(cfg, image);
    SettingLength(cfg, node, serverURL, kubeDir, network);
    assert |NodeSizing(node, domain, setting)| == |NodeSizing(node, domain, [])| + |setting|;
  }

  /** The bundle of the datastore, and the kubeconfig and manifest mounts of the bootstrap server,
      show in a server's vector: the bundle adds one mount and three flags, so an odd number of
      arguments, and the rest an even one. */
  lemma MountsLonger(cfg: ClusterConfig, node: NodeConfig, domain: string, kubeDir: string)
    ensures 2 * |ServerMounts(cfg, node, kubeDir)| + |NodeCommand(cfg, node, domain, kubeDir)|
         == |NodeCommand(cfg.(datastoreTLSDir := ""), node, domain, "")|
            + (if node.role.Server? && cfg.datastoreTLSDir != "" then 5 else 0)
            + (if node.role.Server? && kubeDir != "" then 6 + 2 * |cfg.manifests| else 0)
  {
  }

  lemma SizingFront(node: NodeConfig, domain: string, rest: seq<string>)
    ensures NodeSizing(node, domain, rest) == NodeSizing(node, domain, []) + rest
  {
  }

  /** Where the first mount after a server's own volume stands in its vector. */
  lemma FirstMountAt(cfg: ClusterConfig, node: NodeConfig, serverURL: string, domain: string, kubeDir: string)
    requires ServerMounts(cfg, node, kubeDir) != []
    ensures
      var k := |NodeSizing(node, domain, [])| + 5;
      k < |NodeRunArgs(cfg, node, serverURL, domain, kubeDir)|
      && NodeRunArgs(cfg, node, serverURL, domain, kubeDir)[k] == ServerMounts(cfg, node, kubeDir)[0]
  {
    hide NodeSizing;
    hide NodeNetwork;
    hide NodeCommand;
    var mounts := ServerMounts(cfg, node, kubeDir);
    var network := NodeNetwork(cfg, [cfg.image] + NodeCommand(cfg, node, domain, kubeDir));
    var rest := Tagged("--label", NodeLabels(cfg.name, node.role)) + (Tagged("--env", NodeEnv(cfg, node, serverURL)) + network);
    var setting := NodeSetting(cfg, node, serverURL, kubeDir, network);
    SizingFront(node, domain, setting);
    TaggedOne("--volume", DataMount(cfg.name, node.name));
    TaggedOne("--volume", mounts[0]);
    TaggedCat("--volume", [mounts[0]], mounts[1..]);
    assert mounts == [mounts[0]] + mounts[1..];
    assert setting == ["--volume", DataMount(cfg.name, node.name)] + (["--volume", mounts[0]] + Tagged("--volume", mounts[1..]) + rest);
    assert setting[3] == mounts[0];
  }

  lemma SameMountSource(a: string, b: string, target: string)
    requires a + ":" + target == b + ":" + target
    ensures a == b
  {
    assert |a| == |b|;
    assert a == (a + ":" + target)[..|a|] && b == (b + ":" + target)[..|b|];
  }

  /** What the record does not keep is all that can differ. */
  lemma KeptVector(cfg: ClusterConfig, again: ClusterConfig, node: NodeConfig, serverURL: string, url: string, domain: string, kubeDir: string)
    requires again.name == cfg.name && again.image == cfg.image && again.network == cfg.network && again.token == cfg.token
    requires node.role.Server? ==> again.datastoreEndpoint == cfg.datastoreEndpoint && again.datastoreTLSDir == cfg.datastoreTLSDir && kubeDir == ""
    requires again.envVars == cfg.envVars && again.dnsServers == cfg.dnsServers && again.caDir == cfg.caDir
    requires node.role.Agent? ==> url == serverURL
    ensures NodeRunArgs(again, node, url, domain, "") == NodeRunArgs(cfg, node, serverURL, domain, kubeDir)
  {
    assert NodeCommand(again, node, domain, "") == NodeCommand(cfg, node, domain, kubeDir);
    var image := [cfg.image] + NodeCommand(cfg, node, domain, kubeDir);
    assert NodeNetwork(again, image) == NodeNetwork(cfg, image);
    assert ServerMounts(again, node, "") == ServerMounts(cfg, node, kubeDir);
    assert NodeEnv(again, node, url) == NodeEnv(cfg, node, serverURL);
  }

  /** The vector recreateK3sNode issues for a recorded node; tlsDir is the datastore client bundle
      found on disk, or "". */
  function RecreatedArgs(state: ClusterState, info: NodeInfo, tlsDir: string, domain: string): seq<string> {
    NodeRunArgs(ConfigFromState(state, tlsDir), NodeConfigFromInfo(info), if info.role.Agent? then state.serverURL else "", domain, "")
  }

  /** The record is of a cluster in which the node was launched with this configuration and
      endpoint; an agent's configuration may leave out the datastore, as that of an added one does. */
  predicate RecordedFrom(state: ClusterState, cfg: ClusterConfig, node: NodeConfig, serverURL: string) {
    && state.clusterName == cfg.name && ResolvedImage(state.image) == cfg.image && state.network == cfg.network && state.token == cfg.token
    && (node.role.Server? ==> state.datastoreEndpoint == cfg.datastoreEndpoint)
    && (node.role.Agent? ==> state.serverURL == serverURL)
  }

  /** The same bundle and no other settings, if the vectors are equal. */
  lemma SameVectorMeans(cfg: ClusterConfig, again: ClusterConfig, node: NodeConfig, serverURL: string, url: string, domain: string, kubeDir: string)
    requires again.network == cfg.network && again.envVars == [] && again.dnsServers == [] && again.caDir == ""
    requires node.role.Server? ==> again.datastoreEndpoint == cfg.datastoreEndpoint && again.name == cfg.name
    requires NodeRunArgs(again, node, url, domain, "") == NodeRunArgs(cfg, node, serverURL, domain, kubeDir)
    ensures cfg.envVars == [] && cfg.dnsServers == [] && cfg.caDir == ""
    ensures node.role.Server? ==> kubeDir == "" && again.datastoreTLSDir == cfg.datastoreTLSDir
  {
    hide NodeRunArgs;
    hide NodeSizing;
    hide NodeCommand;
    RunArgsLength(cfg, node, serverURL, domain, kubeDir);
    RunArgsLength(again, node, url, domain, "");
    MountsLonger(cfg, node, domain, kubeDir);
    MountsLonger(again, node, domain, "");
    SameBareCommand(cfg, again, node, domain);
    if node.role.Server? && cfg.datastoreTLSDir != "" {
      FirstMountAt(cfg, node, serverURL, domain, kubeDir);
      FirstMountAt(again, node, url, domain, "");
      SameMountSource(again.datastoreTLSDir, cfg.datastoreTLSDir, ETCD_TLS_RO);
    }
  }

  lemma SameBareCommand(cfg: ClusterConfig, again: ClusterConfig, node: NodeConfig, domain: string)
    requires node.role.Server? ==> again.datastoreEndpoint == cfg.datastoreEndpoint && again.name == cfg.name
    ensures NodeCommand(again.(datastoreTLSDir := ""), node, domain, "") == NodeCommand(cfg.(datastoreTLSDir := ""), node, domain, "")
  {
  }

  /** A node recreated from its record is launched with the vector it was first launched with,
      exactly when it was launched without extra environment, DNS servers and CA directory, which
      the record does not keep, and, if it is a server, it is not the bootstrap server, whose
      kubeconfig and manifest mounts are not made again, and the client bundle found on disk is the
      one it was launched with, which the record does not keep either. */
  lemma RecreateFidelity(cfg: ClusterConfig, node: NodeConfig, serverURL: string, domain: string, addr: Addr, kubeDir: string,
                         state: ClusterState, tlsDir: string)
    requires RecordedFrom(state, cfg, node, serverURL)
    ensures RecreatedArgs(state, InfoOf(node, domain, addr), tlsDir, domain) == NodeRunArgs(cfg, node, serverURL, domain, kubeDir)
       <==> cfg.envVars == [] && cfg.dnsServers == [] && cfg.caDir == ""
            && (node.role.Server? ==> kubeDir == "" && tlsDir == cfg.datastoreTLSDir)
  {
    hide NodeRunArgs;
    var again := ConfigFromState(state, tlsDir);
    var url := if node.role.Agent? then state.serverURL else "";
    assert NodeConfigFromInfo(InfoOf(node, domain, addr)) == node;
    if NodeRunArgs(again, node, url, domain, "") == NodeRunArgs(cfg, node, serverURL, domain, kubeDir) {
      SameVectorMeans(cfg, again, node, serverURL, url, domain, kubeDir);
    }
    if cfg.envVars == [] && cfg.dnsServers == [] && cfg.caDir == "" && (node.role.Server? ==> kubeDir == "" && tlsDir == cfg.datastoreTLSDir) {
      KeptVector(cfg, again, node, serverURL, url, domain, kubeDir);
    }
  }

  /** A second server of a cluster over an operator's own datastore, recreated while an earlier,
      abandoned create has left its client bundle on disk, gets a bundle it never had. */
  lemma LeftoverBundle()
    ensures
      var node := NodeConfig(ServerName("a", 2), Server, MIB, GIGA, [], []);
      var cfg := ClusterConfig("a", DEFAULT_K3S_IMAGE, "", "t", "http://db", false, 0, "", 0, "", true, [], [], "", [], [node]);
      var state := ClusterState("a", "", "t", DEFAULT_K3S_IMAGE, "http://db", "", "", "", [InfoOf(node, "b", "")]);
      RecreatedArgs(state, InfoOf(node, "b", ""), "/s/a/etcd-tls/client", "b") != NodeRunArgs(cfg, node, "", "b", "")
  {
    hide NodeRunArgs;
    hide ServerName;
    var node := NodeConfig(ServerName("a", 2), Server, MIB, GIGA, [], []);
    var cfg := ClusterConfig("a", DEFAULT_K3S_IMAGE, "", "t", "http://db", false, 0, "", 0, "", true, [], [], "", [], [node]);
    var state := ClusterState("a", "", "t", DEFAULT_K3S_IMAGE, "http://db", "", "", "", [InfoOf(node, "b", "")]);
    RecreateFidelity(cfg, node, "", "b", "", "", state, "/s/a/etcd-tls/client");
  }

  /** The vCPU and megabyte counts asked for on the command line are the ones printed. */
  lemma SizesRoundTrip(megabytes: nat, vcpus: nat)
    ensures MemoryValues(megabytes * MIB) == if megabytes == 0 then [] else [Dec(megabytes) + "MB"]
    ensures CpuValues(vcpus * GIGA) == if vcpus == 0 then [] else [Dec(vcpus)]
  {
    assert megabytes * MIB / MIB == megabytes;
    assert vcpus * GIGA / GIGA == vcpus;
  }
}
