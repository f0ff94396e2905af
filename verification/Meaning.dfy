/** What the launched programs make of their commands and mounts: k3s, etcd, etcdctl and HAProxy
    (provider/apple/node.go, snapshot.go, rotate.go). Flags, files, ports and paths are those
    programs' own. */
module Meaning {
  import opened Types
  import opened Text
  import opened Names
  import opened Recipes

  // ---------------------------------------------------------------------------------------
  // Flags
  // ---------------------------------------------------------------------------------------

  predicate IsFlag(arg: string) {
    |arg| >= 2 && arg[0] == '-' && arg[1] == '-'
  }

  /** A flag that carries its value after a '='. */
  predicate Inline(arg: string) {
    |Before(arg, '=')| < |arg|
  }

  /** The values a command gives to a flag, in order; a flag without '=' takes the next argument. */
  function Values(args: seq<string>, flag: string): seq<string>
    decreases |args|
  {
    if args == [] then []
    else if !IsFlag(args[0]) then Values(args[1..], flag)
    else
      var key := Before(args[0], '=');
      if Inline(args[0]) then When(key == flag, [args[0][|key| + 1..]]) + Values(args[1..], flag)
      else if |args| == 1 then []
      else When(key == flag, [args[1]]) + Values(args[2..], flag)
  }

  /** The value that counts is the last. */
  function Setting(args: seq<string>, flag: string): Option<string> {
    var values := Values(args, flag);
    if values == [] then None else Some(values[|values| - 1])
  }

  /** No flag at the end waits for its value. */
  predicate Whole(args: seq<string>)
    decreases |args|
  {
    if args == [] then true
    else if !IsFlag(args[0]) || Inline(args[0]) then Whole(args[1..])
    else |args| > 1 && Whole(args[2..])
  }

  lemma {:induction false} ValuesCat(a: seq<string>, b: seq<string>, flag: string)
    requires Whole(a)
    ensures Values(a + b, flag) == Values(a, flag) + Values(b, flag)
    ensures Whole(b) ==> Whole(a + b)
    decreases |a|
  {
    if a == [] {
      assert a + b == b;
    } else {
      assert (a + b)[1..] == a[1..] + b;
      if !IsFlag(a[0]) || Inline(a[0]) {
        ValuesCat(a[1..], b, flag);
      } else {
        assert (a + b)[2..] == a[2..] + b;
        ValuesCat(a[2..], b, flag);
      }
    }
  }

  /** A flag's name. */
  predicate FlagName(key: string) {
    IsFlag(key) && '=' !in key
  }

  lemma PairValues(key: string, value: string, flag: string)
    requires FlagName(key)
    ensures Whole([key, value]) && Values([key, value], flag) == When(key == flag, [value])
  {
    BeforeAbsent(key, '=');
    var args: seq<string> := [key, value];
    assert args[2..] == [];
  }

  lemma InlineValues(key: string, value: string, flag: string)
    requires FlagName(key)
    ensures Whole([key + "=" + value]) && Values([key + "=" + value], flag) == When(key == flag, [value])
  {
    var arg := key + "=" + value;
    assert arg == key + ['='] + value;
    BeforeSeparator(key, '=', value);
    assert arg[0] == key[0] && arg[1] == key[1] && arg[|key| + 1..] == value;
    var args: seq<string> := [arg];
    assert args[1..] == [];
  }

  lemma WordValues(word: string, flag: string)
    requires !IsFlag(word)
    ensures Whole([word]) && Values([word], flag) == []
  {
    var args: seq<string> := [word];
    assert args[1..] == [];
  }

  lemma {:induction false} TaggedValues(key: string, values: seq<string>, flag: string)
    requires FlagName(key)
    ensures Whole(Tagged(key, values)) && Values(Tagged(key, values), flag) == When(key == flag, values)
    decreases |values|
  {
    if values != [] {
      var init, last := values[..|values| - 1], values[|values| - 1];
      TaggedValues(key, init, flag);
      PairValues(key, last, flag);
      ValuesCat(Tagged(key, init), [key, last], flag);
      assert values == init + [last];
    }
  }

  // ---------------------------------------------------------------------------------------
  // Files
  // ---------------------------------------------------------------------------------------

  /** The argument is the path, in the container, of this file of this host directory. */
  predicate Finds(volumes: seq<string>, path: Option<string>, dir: string, file: string) {
    && path.Some? && |file| < |path.value|
    && var target := path.value[..|path.value| - |file| - 1];
    && path.value == target + "/" + file
    && MountedAt(volumes, target) == Some(dir)
  }

  lemma FindsAt(volumes: seq<string>, target: string, dir: string, file: string)
    requires MountedAt(volumes, target) == Some(dir)
    ensures Finds(volumes, Some(target + "/" + file), dir, file)
  {
    hide MountedAt;
    assert (target + "/" + file)[..|target|] == target;
  }

  // ---------------------------------------------------------------------------------------
  // Sizes and labels
  // ---------------------------------------------------------------------------------------

  /** The megabytes of a memory size. */
  function Megabytes(text: string): Option<int> {
    if |text| > 2 && text[|text| - 2..] == "MB" then Atoi(text[..|text| - 2]) else None
  }

  lemma MegabytesOf(n: int)
    ensures Megabytes(DecInt(n) + "MB") == Some(n)
  {
    AtoiDecInt(n);
    var text := DecInt(n) + "MB";
    assert text[..|text| - 2] == DecInt(n) && text[|text| - 2..] == "MB";
  }

  /** The machine has the memory and the CPUs asked for, if any were. */
  predicate SizedFor(m: Machine, memory: int, nanoCPUs: int) {
    && (if memory > 0 then |m.memory| == 1 && Megabytes(m.memory[0]) == Some(memory / (1024 * 1024)) else m.memory == [])
    && (if nanoCPUs > 0 then |m.cpus| == 1 && Atoi(m.cpus[0]) == Some(nanoCPUs / 1_000_000_000) else m.cpus == [])
  }

  lemma NodeSized(m: Machine, memory: int, nanoCPUs: int)
    requires m.memory == MemoryValues(memory) && m.cpus == CpuValues(nanoCPUs)
    ensures SizedFor(m, memory, nanoCPUs)
  {
    MegabytesOf(memory / MIB);
    AtoiDecInt(nanoCPUs / GIGA);
  }

  predicate LabelledAs(labels: seq<string>, role: string) {
    LabelValue(labels, "k3s.owned=") == Some("true") && LabelValue(labels, "k3s.role=") == Some(role)
  }

  lemma NodeLabelled(c: string, role: Role)
    ensures LabelledAs(NodeLabels(c, role), role.Text())
  {
    LabelsRead(c, role);
    assert OWNED_LABEL == "k3s.owned=" + "true";
  }

  /** On the cluster's network, in the background. */
  predicate OnNetwork(m: Machine, network: string) {
    m.detached && m.network == if network == "" then [] else [network]
  }

  // ---------------------------------------------------------------------------------------
  // k3s
  // ---------------------------------------------------------------------------------------

  /** What the nodes of a cluster have in common. */
  datatype Common = Common(image: string, network: string, token: string, endpoint: string, url: string)

  /** What follows the launcher's own flags: the node's labels, then its extra arguments. */
  function Trailing(node: NodeConfig): nat {
    2 * |node.labels| + |node.extraArgs|
  }

  /** The launcher's own part of a node's command. */
  function Own(command: seq<string>, node: NodeConfig): seq<string> {
    if Trailing(node) <= |command| then command[..|command| - Trailing(node)] else command
  }

  /** The command ends with the node's labels and extra arguments, which win over all before. */
  predicate EndsAsAsked(command: seq<string>, node: NodeConfig) {
    Trailing(node) <= |command| &&
    var rest := command[|command| - Trailing(node)..];
    && rest[2 * |node.labels|..] == node.extraArgs
    && Values(rest[..2 * |node.labels|], "--node-label") == node.labels
  }

  predicate HasSAN(command: seq<string>, host: string) {
    exists i | 0 <= i < |command| - 1 :: command[i] == "--tls-san" && command[i + 1] == host
  }

  /** A server's own flags: its datastore and the names its certificate must hold. */
  predicate ServerFlagged(own: seq<string>, c: string, name: string, d: string, endpoint: string) {
    && own != [] && own[0] == "server"
    && Setting(own, "--flannel-backend") == Some("host-gw")
    && Setting(own, "--datastore-endpoint") == (if endpoint == "" then None else Some(endpoint))
    && Values(own, "--tls-san") ==
         (if d == "" then [] else if endpoint == "" then [NodeFQDN(name, d)] else [NodeFQDN(name, d), ClusterAPIFQDN(c, d)])
  }

  /** The datastore's client keys, each in its place, out of this host directory, or none. */
  predicate KeyedBy(l: Launch, node: NodeConfig, dir: string) {
    var own := Own(l.command, node);
    if dir == "" then
      && Values(own, "--datastore-cafile") == Values(own, "--datastore-certfile") == Values(own, "--datastore-keyfile") == []
      && TLSSource(l.volumes) == None
    else
      && Finds(l.volumes, Setting(own, "--datastore-cafile"), dir, "ca.crt")
      && Finds(l.volumes, Setting(own, "--datastore-certfile"), dir, "client.crt")
      && Finds(l.volumes, Setting(own, "--datastore-keyfile"), dir, "client.key")
      && TLSSource(l.volumes) == Some(dir)
  }

  /** k3s writes its kubeconfig to this file of this host directory. */
  predicate WritesKubeconfig(l: Launch, node: NodeConfig, dir: string, file: string) {
    Finds(l.volumes, Setting(Own(l.command, node), "--write-kubeconfig"), dir, file)
  }

  /** The launch runs this node with these cluster settings, on its own data volume. */
  predicate Serves(l: Launch, c: string, node: NodeConfig, d: string, s: Common) {
    && l.image == s.image && OnNetwork(l.machine, s.network) && SizedFor(l.machine, node.memory, node.nanoCPUs)
    && l.machine.caps == ["ALL"] && l.machine.scratch == ["/run", "/tmp"]
    && VolumeTarget(l.volumes) == Some("/var/lib/rancher/k3s")
    && LabelledAs(l.labels, if node.role.Server? then "server" else "agent")
    && "K3S_TOKEN=" + s.token in l.env
    && (node.role.Agent? ==> "K3S_URL=" + s.url in l.env && Own(l.command, node) == ["agent"])
    && EndsAsAsked(l.command, node)
    && (node.role.Server? ==> ServerFlagged(Own(l.command, node), c, node.name, d, s.endpoint))
    && (node.role.Server? && d != "" ==> HasSAN(l.command, NodeFQDN(node.name, d)))
    && (node.role.Server? && d != "" && s.endpoint != "" ==> HasSAN(l.command, ClusterAPIFQDN(c, d)))
  }

  /** What a cluster's k3s nodes are first launched with beyond what the record keeps. */
  datatype Outfit = Outfit(envVars: seq<string>, dnsServers: seq<string>, caDir: string, manifests: seq<string>)

  /** The node has the resolvers asked for, and the environment after its own, with the bundle of
      the CA directory, if there is one, trusted. */
  predicate Outfitted(l: Launch, role: Role, o: Outfit) {
    && l.machine.dns == o.dnsServers
    && var own := if role.Agent? then 2 else 1;
    && own <= |l.env|
    && l.env[own..] == o.envVars + (if o.caDir == "" then [] else ["SSL_CERT_FILE=/etc/k3ac/ca/ca-bundle.pem"])
    && (HostPath(o.caDir) ==> Finds(l.volumes, Some("/etc/k3ac/ca/ca-bundle.pem"), o.caDir, "ca-bundle.pem"))
  }

  /** Each manifest is mounted under its own name where k3s looks for manifests. */
  predicate MountsManifests(volumes: seq<string>, manifests: seq<string>) {
    forall k: nat | k < |manifests| :: Binds(volumes, manifests[k], "/var/lib/rancher/k3s/server/manifests" + "/" + Base(manifests[k]))
  }

  /** The host path is mounted there. */
  predicate Binds(volumes: seq<string>, path: string, target: string) {
    exists v :: v in volumes && MountSource(v) == path && MountTarget(v) == target
  }

  // ---------------------------------------------------------------------------------------
  // etcd, etcdctl, HAProxy and the offline rotation
  // ---------------------------------------------------------------------------------------

  /** What the members of a datastore have in common. */
  datatype Quorate = Quorate(cluster: string, image: string, network: string, mesh: string)

  /** Peers and clients of a member meet its own keys, of this host directory, and must show theirs. */
  predicate Secured(l: Launch, dir: string) {
    && Finds(l.volumes, Setting(l.command, "--peer-cert-file"), dir, "server.crt")
    && Finds(l.volumes, Setting(l.command, "--peer-key-file"), dir, "server.key")
    && Finds(l.volumes, Setting(l.command, "--peer-trusted-ca-file"), dir, "ca.crt")
    && Setting(l.command, "--peer-client-cert-auth") == Some("true")
    && Finds(l.volumes, Setting(l.command, "--cert-file"), dir, "server.crt")
    && Finds(l.volumes, Setting(l.command, "--key-file"), dir, "server.key")
    && Finds(l.volumes, Setting(l.command, "--trusted-ca-file"), dir, "ca.crt")
    && Setting(l.command, "--client-cert-auth") == Some("true")
  }

  /** A member of the mesh under its own name and address, with its data on its own volume. */
  predicate Meshed(command: seq<string>, name: string, host: string, q: Quorate) {
    && Setting(command, "--name") == Some(name)
    && Setting(command, "--listen-peer-urls") == Some("https://0.0.0.0:2380")
    && Setting(command, "--listen-client-urls") == Some("https://0.0.0.0:2379")
    && Setting(command, "--initial-advertise-peer-urls") == Some(HttpsURL(host, "2380"))
    && Setting(command, "--advertise-client-urls") == Some(HttpsURL(host, "2379"))
    && Setting(command, "--initial-cluster") == Some(q.mesh)
    && Setting(command, "--initial-cluster-state") == Some("new")
    && Setting(command, "--initial-cluster-token") == Some(q.cluster + "-etcd")
  }

  /** The data directory lies on the named volume. */
  predicate DataOnVolume(l: Launch) {
    VolumeTarget(l.volumes) == Some("/data") && Setting(l.command, "--data-dir") == Some("/data" + "/" + "etcd")
  }

  /** The launch runs this member of the datastore. */
  predicate RunsMember(l: Launch, name: string, host: string, memory: int, q: Quorate, dir: string) {
    && l.image == q.image && OnNetwork(l.machine, q.network) && LabelledAs(l.labels, "datastore")
    && |l.machine.memory| == 1 && Megabytes(l.machine.memory[0]) == Some(TruncDiv(memory, 1024 * 1024))
    && l.command != [] && l.command[0] == "/usr/local/bin/etcd"
    && Meshed(l.command, name, host, q) && DataOnVolume(l) && Secured(l, dir) && TLSSource(l.volumes) == Some(dir)
  }

  /** The launch runs HAProxy on the configuration of this host directory. */
  predicate RunsProxy(l: Launch, network: string, dir: string) {
    && l.image == "haproxy:3.0-alpine" && l.command == [] && OnNetwork(l.machine, network) && LabelledAs(l.labels, "lb")
    && |l.machine.memory| == 1 && Megabytes(l.machine.memory[0]) == Some(256)
    && MountedAt(l.volumes, "/usr/local/etc/haproxy") == Some(dir)
  }

  /** The one-shot launch unpacks this file of this host directory, as the member's own start in
      the mesh, onto its named volume. */
  predicate Unpacks(l: Launch, name: string, host: string, q: Quorate, snapDir: string, file: string) {
    && !l.machine.detached && l.image == q.image && "ETCDCTL_API=3" in l.env
    && |l.command| >= 4 && l.command[..3] == ["/usr/local/bin/etcdctl", "snapshot", "restore"]
    && (HostPath(snapDir) ==> Finds(l.volumes, Some(l.command[3]), snapDir, file))
    && Setting(l.command, "--name") == Some(name)
    && Setting(l.command, "--initial-cluster") == Some(q.mesh)
    && Setting(l.command, "--initial-advertise-peer-urls") == Some(HttpsURL(host, "2380"))
    && Setting(l.command, "--initial-cluster-token") == Some(q.cluster + "-etcd")
    && DataOnVolume(l)
  }

  /** The one-shot launch asks this member for the key, as a client with the keys of this host
      directory. */
  predicate AsksFor(l: Launch, host: string, image: string, network: string, dir: string, key: string) {
    && !l.machine.detached && l.image == image && "ETCDCTL_API=3" in l.env && l.machine.network == When(network != "", [network])
    && |l.command| == 11 && l.command[0] == "/usr/local/bin/etcdctl" && l.command[8..] == ["get", key, "--keys-only"]
    && Setting(l.command, "--endpoints") == Some(HttpsURL(host, "2379"))
    && Finds(l.volumes, Setting(l.command, "--cacert"), dir, "ca.crt")
    && Finds(l.volumes, Setting(l.command, "--cert"), dir, "client.crt")
    && Finds(l.volumes, Setting(l.command, "--key"), dir, "client.key")
  }

  /** The command reseals a cluster's bootstrap data from one token to the other. */
  predicate Reseals(args: seq<string>, held: string, token: string) {
    && |args| >= 3 && args[..3] == ["k3s", "token", "rotate"]
    && Setting(args, "--token") == Some(held) && Setting(args, "--new-token") == Some(token)
  }

  /** The one-shot launch reissues the certificates kept on its named volume. */
  predicate Reissues(l: Launch, image: string, network: string, volume: string) {
    && !l.machine.detached && l.image == image && l.machine.network == When(network != "", [network])
    && NamedVolume(l.volumes) == Some(volume)
    && |l.command| >= 2 && l.command[..2] == ["certificate", "rotate"]
    && VolumeTarget(l.volumes) == Some("/var/lib/rancher/k3s") == Setting(l.command, "--data-dir")
  }

  // ---------------------------------------------------------------------------------------
  // The k3s vector
  // ---------------------------------------------------------------------------------------

  lemma SANInside(before: seq<string>, flags: seq<string>, after: seq<string>, host: string)
    requires HasSAN(flags, host)
    ensures HasSAN(before + flags + after, host)
  {
    var i :| 0 <= i < |flags| - 1 && flags[i] == "--tls-san" && flags[i + 1] == host;
    var all := before + flags + after;
    assert all[|before| + i] == "--tls-san" && all[|before| + i + 1] == host;
  }

  lemma SANAt(args: seq<string>, i: nat, host: string)
    requires i + 1 < |args| && args[i] == "--tls-san" && args[i + 1] == host
    ensures HasSAN(args, host)
  {
  }

  lemma SANTagged(own: string, shared: seq<string>)
    requires |shared| <= 1
    ensures HasSAN(Tagged("--tls-san", [own] + shared), own)
    ensures shared != [] ==> HasSAN(Tagged("--tls-san", [own] + shared), shared[0])
  {
    var args := Tagged("--tls-san", [own] + shared);
    TaggedOne("--tls-san", own);
    TaggedCat("--tls-san", [own], shared);
    SANAt(args, 0, own);
    if shared != [] {
      TaggedOne("--tls-san", shared[0]);
      assert shared == [shared[0]];
      SANAt(args, 2, shared[0]);
    }
  }

  /** Names a server is flagged with are in its command. */
  lemma CommandHolds(cfg: ClusterConfig, node: NodeConfig, domain: string, kubeDir: string, host: string)
    requires node.role.Server? && HasSAN(Tagged("--tls-san", ServerSANs(cfg, node, domain)), host)
    ensures HasSAN(NodeCommand(cfg, node, domain, kubeDir), host)
  {
    var sans := Tagged("--tls-san", ServerSANs(cfg, node, domain));
    var front := ServerFront(cfg, kubeDir);
    var labels := Tagged("--node-label", node.labels);
    SANInside([node.role.Text()] + front, sans, labels + node.extraArgs, host);
    Together([node.role.Text()], front, sans);
    Together([node.role.Text()] + (front + sans), labels, node.extraArgs);
  }

  lemma CommandEnds(own: seq<string>, node: NodeConfig)
    ensures
      var command := own + Tagged("--node-label", node.labels) + node.extraArgs;
      Own(command, node) == own && EndsAsAsked(command, node)
  {
    var labels := Tagged("--node-label", node.labels);
    var command := own + labels + node.extraArgs;
    assert '=' !in "--node-label";
    TaggedValues("--node-label", node.labels, "--node-label");
    var rest := command[|own|..];
    assert rest[..|labels|] == labels && rest[|labels|..] == node.extraArgs;
  }

  /** The flag names differ. */
  lemma FlagsApart()
    ensures "--flannel-backend" !in {"--datastore-endpoint", "--datastore-cafile", "--datastore-certfile", "--datastore-keyfile",
                                     "--write-kubeconfig", "--write-kubeconfig-mode", "--tls-san"}
    ensures "--datastore-endpoint" !in {"--datastore-cafile", "--datastore-certfile", "--datastore-keyfile",
                                        "--write-kubeconfig", "--write-kubeconfig-mode", "--tls-san"}
    ensures "--datastore-cafile" !in {"--datastore-certfile", "--datastore-keyfile", "--write-kubeconfig", "--write-kubeconfig-mode", "--tls-san"}
    ensures "--datastore-certfile" !in {"--datastore-keyfile", "--write-kubeconfig", "--write-kubeconfig-mode", "--tls-san"}
    ensures "--datastore-keyfile" !in {"--write-kubeconfig", "--write-kubeconfig-mode", "--tls-san"}
    ensures "--write-kubeconfig" !in {"--write-kubeconfig-mode", "--tls-san"}
  {
    assert "--datastore-endpoint"[12] == 'e' && "--datastore-certfile"[12] == 'c';
    assert "--datastore-cafile"[2] == 'd' && "--write-kubeconfig"[2] == 'w';
  }

  lemma FlagNames()
    ensures FlagName("--flannel-backend") && FlagName("--datastore-endpoint") && FlagName("--datastore-cafile")
    ensures FlagName("--datastore-certfile") && FlagName("--datastore-keyfile") && FlagName("--write-kubeconfig")
    ensures FlagName("--write-kubeconfig-mode") && FlagName("--tls-san")
  {
  }

  lemma EndpointValues(endpoint: string, flag: string)
    ensures
      var args := When(endpoint != "", ["--datastore-endpoint=" + endpoint]);
      Whole(args) && Values(args, flag) == When(endpoint != "" && flag == "--datastore-endpoint", [endpoint])
  {
    FlagNames();
    if endpoint != "" {
      InlineValues("--datastore-endpoint", endpoint, flag);
      assert "--datastore-endpoint=" + endpoint == "--datastore-endpoint" + "=" + endpoint;
    }
  }

  lemma ThreeValues(k1: string, v1: string, k2: string, v2: string, k3: string, v3: string, flag: string)
    requires FlagName(k1) && FlagName(k2) && FlagName(k3)
    ensures
      var args := [k1 + "=" + v1, k2 + "=" + v2, k3 + "=" + v3];
      Whole(args) && Values(args, flag) == When(flag == k1, [v1]) + When(flag == k2, [v2]) + When(flag == k3, [v3])
  {
    hide Whole;
    hide Values;
    var a, b, c := [k1 + "=" + v1], [k2 + "=" + v2], [k3 + "=" + v3];
    InlineValues(k1, v1, flag);
    InlineValues(k2, v2, flag);
    InlineValues(k3, v3, flag);
    ValuesCat(a, b, flag);
    ValuesCat(a + b, c, flag);
    assert a + b + c == [k1 + "=" + v1, k2 + "=" + v2, k3 + "=" + v3];
  }

  lemma KeyFileValues(flag: string)
    ensures
      var args := ["--datastore-cafile=" + ETCD_TLS_MOUNT + "/ca.crt", "--datastore-certfile=" + ETCD_TLS_MOUNT + "/client.crt",
                   "--datastore-keyfile=" + ETCD_TLS_MOUNT + "/client.key"];
      && Whole(args)
      && Values(args, flag) ==
           When(flag == "--datastore-cafile", ["/etc/etcd/tls/ca.crt"]) + When(flag == "--datastore-certfile", ["/etc/etcd/tls/client.crt"])
           + When(flag == "--datastore-keyfile", ["/etc/etcd/tls/client.key"])
  {
    hide Whole;
    hide Values;
    hide FlagName;
    FlagNames();
    KeyArgs();
    ThreeValues("--datastore-cafile", "/etc/etcd/tls/ca.crt", "--datastore-certfile", "/etc/etcd/tls/client.crt",
                "--datastore-keyfile", "/etc/etcd/tls/client.key", flag);
  }

  lemma KubeValues(path: string, mode: string, flag: string)
    ensures
      var args := ["--write-kubeconfig", path, "--write-kubeconfig-mode", mode];
      Whole(args) && Values(args, flag) == When(flag == "--write-kubeconfig", [path]) + When(flag == "--write-kubeconfig-mode", [mode])
  {
    FlagNames();
    PairValues("--write-kubeconfig", path, flag);
    PairValues("--write-kubeconfig-mode", mode, flag);
    ValuesCat(["--write-kubeconfig", path], ["--write-kubeconfig-mode", mode], flag);
    assert ["--write-kubeconfig", path] + ["--write-kubeconfig-mode", mode] == ["--write-kubeconfig", path, "--write-kubeconfig-mode", mode];
  }

  /** The values of a server's flags, by flag. */
  function FrontValues(cfg: ClusterConfig, kubeDir: string, flag: string): seq<string> {
    When(flag == "--flannel-backend", ["host-gw"])
    + When(cfg.datastoreEndpoint != "" && flag == "--datastore-endpoint", [cfg.datastoreEndpoint])
    + When(cfg.datastoreTLSDir != "" && flag == "--datastore-cafile", ["/etc/etcd/tls/ca.crt"])
    + When(cfg.datastoreTLSDir != "" && flag == "--datastore-certfile", ["/etc/etcd/tls/client.crt"])
    + When(cfg.datastoreTLSDir != "" && flag == "--datastore-keyfile", ["/etc/etcd/tls/client.key"])
    + When(kubeDir != "" && flag == "--write-kubeconfig", ["/mnt/k3s-out/k3s.yaml"])
    + When(kubeDir != "" && flag == "--write-kubeconfig-mode", ["0644"])
  }

  lemma FourParts(a: seq<string>, b: seq<string>, c: seq<string>, d: seq<string>, flag: string)
    requires Whole(a) && Whole(b) && Whole(c) && Whole(d)
    ensures Whole(a + b + c + d) && Values(a + b + c + d, flag) == Values(a, flag) + Values(b, flag) + Values(c, flag) + Values(d, flag)
  {
    hide Whole;
    hide Values;
    ValuesCat(a, b, flag);
    ValuesCat(a + b, c, flag);
    ValuesCat(a + b + c, d, flag);
  }

  lemma BackendValues(flag: string)
    ensures Whole(["--flannel-backend=host-gw"]) && Values(["--flannel-backend=host-gw"], flag) == When(flag == "--flannel-backend", ["host-gw"])
  {
    FlagNames();
    InlineValues("--flannel-backend", "host-gw", flag);
    assert "--flannel-backend" + "=" + "host-gw" == "--flannel-backend=host-gw";
  }

  lemma FrontReads(cfg: ClusterConfig, kubeDir: string, flag: string)
    ensures Whole(ServerFront(cfg, kubeDir)) && Values(ServerFront(cfg, kubeDir), flag) == FrontValues(cfg, kubeDir, flag)
  {
    hide Whole;
    hide Values;
    BackendValues(flag);
    EndpointValues(cfg.datastoreEndpoint, flag);
    KeyFileValues(flag);
    KubeValues(KUBECONFIG_PATH, "0644", flag);
    Nothing(flag);
    FourParts(["--flannel-backend=host-gw"],
      When(cfg.datastoreEndpoint != "", ["--datastore-endpoint=" + cfg.datastoreEndpoint]),
      When(cfg.datastoreTLSDir != "", ["--datastore-cafile=" + ETCD_TLS_MOUNT + "/ca.crt", "--datastore-certfile=" + ETCD_TLS_MOUNT + "/client.crt",
                                       "--datastore-keyfile=" + ETCD_TLS_MOUNT + "/client.key"]),
      When(kubeDir != "", ["--write-kubeconfig", KUBECONFIG_PATH, "--write-kubeconfig-mode", "0644"]), flag);
  }

  lemma Nothing(flag: string)
    ensures Whole([]) && Values([], flag) == []
  {
  }

  lemma KeyArgs()
    ensures "--datastore-cafile=" + ETCD_TLS_MOUNT + "/ca.crt" == "--datastore-cafile" + "=" + "/etc/etcd/tls/ca.crt"
    ensures "--datastore-certfile=" + ETCD_TLS_MOUNT + "/client.crt" == "--datastore-certfile" + "=" + "/etc/etcd/tls/client.crt"
    ensures "--datastore-keyfile=" + ETCD_TLS_MOUNT + "/client.key" == "--datastore-keyfile" + "=" + "/etc/etcd/tls/client.key"
  {
  }

  /** The values of each flag of a server, apart from the names. */
  lemma FrontSettings(cfg: ClusterConfig, kubeDir: string)
    ensures FrontValues(cfg, kubeDir, "--flannel-backend") == ["host-gw"]
    ensures FrontValues(cfg, kubeDir, "--datastore-endpoint") == When(cfg.datastoreEndpoint != "", [cfg.datastoreEndpoint])
    ensures FrontValues(cfg, kubeDir, "--write-kubeconfig") == When(kubeDir != "", ["/mnt/k3s-out/k3s.yaml"])
    ensures FrontValues(cfg, kubeDir, "--tls-san") == []
  {
    FlagsApart();
  }

  lemma FrontCA(cfg: ClusterConfig, kubeDir: string)
    ensures FrontValues(cfg, kubeDir, "--datastore-cafile") == When(cfg.datastoreTLSDir != "", ["/etc/etcd/tls/ca.crt"])
  {
    FlagsApart();
  }

  lemma FrontCert(cfg: ClusterConfig, kubeDir: string)
    ensures FrontValues(cfg, kubeDir, "--datastore-certfile") == When(cfg.datastoreTLSDir != "", ["/etc/etcd/tls/client.crt"])
  {
    FlagsApart();
  }

  lemma FrontKey(cfg: ClusterConfig, kubeDir: string)
    ensures FrontValues(cfg, kubeDir, "--datastore-keyfile") == When(cfg.datastoreTLSDir != "", ["/etc/etcd/tls/client.key"])
  {
    FlagsApart();
  }

  /** The launcher's own part of a node's command. */
  function OwnPart(cfg: ClusterConfig, node: NodeConfig, d: string, kubeDir: string): seq<string> {
    [node.role.Text()] + When(node.role.Server?, ServerFlags(cfg, node, d, kubeDir))
  }

  lemma OwnOf(cfg: ClusterConfig, node: NodeConfig, d: string, kubeDir: string)
    ensures Own(NodeCommand(cfg, node, d, kubeDir), node) == OwnPart(cfg, node, d, kubeDir)
    ensures EndsAsAsked(NodeCommand(cfg, node, d, kubeDir), node)
  {
    CommandEnds(OwnPart(cfg, node, d, kubeDir), node);
  }

  lemma ServerValues(cfg: ClusterConfig, node: NodeConfig, d: string, kubeDir: string, flag: string)
    requires node.role.Server?
    ensures Values(OwnPart(cfg, node, d, kubeDir), flag)
         == FrontValues(cfg, kubeDir, flag) + When(flag == "--tls-san", ServerSANs(cfg, node, d))
  {
    hide Whole;
    hide Values;
    hide FrontValues;
    hide ServerFront;
    hide ServerSANs;
    hide Tagged;
    var front, sans := ServerFront(cfg, kubeDir), Tagged("--tls-san", ServerSANs(cfg, node, d));
    FlagNames();
    assert !IsFlag("server");
    WordValues("server", flag);
    FrontReads(cfg, kubeDir, flag);
    TaggedValues("--tls-san", ServerSANs(cfg, node, d), flag);
    ValuesCat(front, sans, flag);
    ValuesCat(["server"], front + sans, flag);
  }

  lemma ServerReads(cfg: ClusterConfig, node: NodeConfig, d: string, kubeDir: string)
    requires node.role.Server?
    ensures ServerFlagged(OwnPart(cfg, node, d, kubeDir), cfg.name, node.name, d, cfg.datastoreEndpoint)
  {
    hide Values;
    hide FrontValues;
    hide ServerFlags;
    hide NodeFQDN;
    hide ClusterAPIFQDN;
    FrontSettings(cfg, kubeDir);
    FlagsApart();
    ServerValues(cfg, node, d, kubeDir, "--flannel-backend");
    ServerValues(cfg, node, d, kubeDir, "--datastore-endpoint");
    ServerValues(cfg, node, d, kubeDir, "--tls-san");
  }

  /** The directory of the datastore's client keys is a path, or there is none and no other mount
      can stand in for it. */
  predicate ReadableKeys(cfg: ClusterConfig) {
    HostPath(cfg.datastoreTLSDir) || (cfg.datastoreTLSDir == "" && (cfg.caDir == "" || HostPath(cfg.caDir)))
  }

  /** A server loads the datastore's client keys from the directory it was given, if it was. */
  lemma ServerKeyed(cfg: ClusterConfig, node: NodeConfig, url: string, d: string, kubeDir: string)
    requires node.role.Server? && ReadableKeys(cfg)
    requires kubeDir == "" || HostPath(kubeDir)
    requires forall m | m in cfg.manifests :: HostPath(m)
    ensures KeyedBy(NodeLaunch(cfg, node, url, d, kubeDir), node, cfg.datastoreTLSDir)
  {
    hide NodeEnv;
    hide Values;
    hide OwnPart;
    hide NodeCommand;
    hide FrontValues;
    hide ServerMounts;
    hide MountedAt;
    hide Finds;
    OwnOf(cfg, node, d, kubeDir);
    FrontCA(cfg, kubeDir);
    FrontCert(cfg, kubeDir);
    FrontKey(cfg, kubeDir);
    FlagsApart();
    ServerValues(cfg, node, d, kubeDir, "--datastore-cafile");
    ServerValues(cfg, node, d, kubeDir, "--datastore-certfile");
    ServerValues(cfg, node, d, kubeDir, "--datastore-keyfile");
    var l := NodeLaunch(cfg, node, url, d, kubeDir);
    if cfg.datastoreTLSDir == "" {
      NoServerTLS(cfg, node, url, d, kubeDir);
    } else {
      ServerLaunchTLS(cfg, node, url, d, kubeDir);
      KeyFiles(l.volumes, cfg.datastoreTLSDir);
    }
  }

  lemma KeyFiles(volumes: seq<string>, dir: string)
    requires TLSSource(volumes) == Some(dir)
    ensures Finds(volumes, Some("/etc/etcd/tls/ca.crt"), dir, "ca.crt")
    ensures Finds(volumes, Some("/etc/etcd/tls/client.crt"), dir, "client.crt")
    ensures Finds(volumes, Some("/etc/etcd/tls/client.key"), dir, "client.key")
  {
    hide Finds;
    hide MountedAt;
    assert ETCD_TLS_MOUNT + "/" + "ca.crt" == "/etc/etcd/tls/ca.crt";
    assert ETCD_TLS_MOUNT + "/" + "client.crt" == "/etc/etcd/tls/client.crt";
    assert ETCD_TLS_MOUNT + "/" + "client.key" == "/etc/etcd/tls/client.key";
    FindsAt(volumes, ETCD_TLS_MOUNT, dir, "ca.crt");
    FindsAt(volumes, ETCD_TLS_MOUNT, dir, "client.crt");
    FindsAt(volumes, ETCD_TLS_MOUNT, dir, "client.key");
  }

  /** A server given a directory for it writes its kubeconfig there. */
  lemma ServerWrites(cfg: ClusterConfig, node: NodeConfig, url: string, d: string, kubeDir: string)
    requires node.role.Server? && HostPath(kubeDir)
    ensures WritesKubeconfig(NodeLaunch(cfg, node, url, d, kubeDir), node, kubeDir, "k3s.yaml")
  {
    hide NodeEnv;
    hide Values;
    hide OwnPart;
    hide NodeCommand;
    hide FrontValues;
    hide MountedAt;
    hide Finds;
    OwnOf(cfg, node, d, kubeDir);
    FrontSettings(cfg, kubeDir);
    FlagsApart();
    ServerValues(cfg, node, d, kubeDir, "--write-kubeconfig");
    var l := NodeLaunch(cfg, node, url, d, kubeDir);
    KubeMounted(cfg, node, kubeDir);
    FindsAt(l.volumes, KUBECONFIG_MOUNT, kubeDir, "k3s.yaml");
    assert KUBECONFIG_MOUNT + "/" + "k3s.yaml" == "/mnt/k3s-out/k3s.yaml";
  }

  lemma KubeMounted(cfg: ClusterConfig, node: NodeConfig, kubeDir: string)
    requires node.role.Server? && HostPath(kubeDir)
    ensures MountedAt([DataMount(cfg.name, node.name)] + ServerMounts(cfg, node, kubeDir) + CAMounts(cfg), KUBECONFIG_MOUNT) == Some(kubeDir)
  {
    hide MountTarget;
    hide MountedAt;
    var volumes := [DataMount(cfg.name, node.name)] + ServerMounts(cfg, node, kubeDir) + CAMounts(cfg);
    KubeApart();
    DataTarget(NodeVolumeName(cfg.name, node.name), K3S_MOUNT);
    KubeSecond(volumes, kubeDir);
  }

  lemma KubeApart()
    ensures ':' !in K3S_MOUNT && ':' !in KUBECONFIG_MOUNT && K3S_MOUNT != KUBECONFIG_MOUNT
  {
    assert K3S_MOUNT[1] == 'v' && KUBECONFIG_MOUNT[1] == 'm';
  }

  lemma KubeSecond(volumes: seq<string>, kubeDir: string)
    requires |volumes| >= 2 && MountTarget(volumes[0]) != KUBECONFIG_MOUNT && volumes[1] == kubeDir + ":" + KUBECONFIG_MOUNT && HostPath(kubeDir)
    ensures MountedAt(volumes, KUBECONFIG_MOUNT) == Some(kubeDir)
  {
    hide MountTarget;
    KubeApart();
    PathSource(kubeDir, KUBECONFIG_MOUNT);
    BeforeAbsent(KUBECONFIG_MOUNT, ':');
    assert volumes[1..][0] == volumes[1];
  }

  lemma DataFound(volumes: seq<string>, name: string, target: string)
    requires volumes != [] && volumes[0] == name + ":" + target && CleanText(name) && name != "" && ':' !in target
    ensures VolumeTarget(volumes) == Some(target)
  {
    NamedSource(name, target);
    DataTarget(name, target);
  }

  function CommonOf(cfg: ClusterConfig, url: string): Common {
    Common(cfg.image, cfg.network, cfg.token, cfg.datastoreEndpoint, url)
  }

  /** Every launched k3s node runs on its cluster's image, network, token and endpoints, at its own
      size and on its own volume, and ends with its own labels and arguments; every server answers
      to its own name and, with a datastore, to the shared API name. */
  lemma NodeServes(cfg: ClusterConfig, node: NodeConfig, url: string, d: string, kubeDir: string)
    requires node.role.IsK3s()
    ensures Serves(NodeLaunch(cfg, node, url, d, kubeDir), cfg.name, node, d, CommonOf(cfg, url))
  {
    hide SizedFor;
    hide LabelledAs;
    hide NodeLabels;
    hide NodeCommand;
    hide OwnPart;
    hide EndsAsAsked;
    hide ServerFlagged;
    hide HasSAN;
    hide VolumeTarget;
    hide ServerMounts;
    hide MemoryValues;
    hide CpuValues;
    hide NodeFQDN;
    hide ClusterAPIFQDN;
    var l := NodeLaunch(cfg, node, url, d, kubeDir);
    NodeSized(l.machine, node.memory, node.nanoCPUs);
    NodeLabelled(cfg.name, node.role);
    NodeFinds(cfg, node, url, d, kubeDir);
    NodeTold(cfg, node, url);
    OwnOf(cfg, node, d, kubeDir);
    if node.role.Server? {
      ServerReads(cfg, node, d, kubeDir);
      ServerNamed(cfg, node, d, kubeDir);
    } else {
      AgentOwn(cfg, node, d, kubeDir);
    }
  }

  /** A server does not use the API endpoint, an agent not the datastore's. */
  lemma ServesAlike(l: Launch, c: string, node: NodeConfig, d: string, s: Common, s': Common)
    requires Serves(l, c, node, d, s) && node.role.IsK3s()
    requires s' == if node.role.Server? then s.(url := s'.url) else s.(endpoint := s'.endpoint)
    ensures Serves(l, c, node, d, s')
  {
    hide EndsAsAsked;
    hide ServerFlagged;
    hide HasSAN;
    hide SizedFor;
    hide LabelledAs;
  }

  lemma NodeFinds(cfg: ClusterConfig, node: NodeConfig, url: string, d: string, kubeDir: string)
    ensures VolumeTarget(NodeLaunch(cfg, node, url, d, kubeDir).volumes) == Some("/var/lib/rancher/k3s")
  {
    OtherTargets();
    DataFound(NodeLaunch(cfg, node, url, d, kubeDir).volumes, NodeVolumeName(cfg.name, node.name), K3S_MOUNT);
  }

  lemma NodeTold(cfg: ClusterConfig, node: NodeConfig, url: string)
    ensures "K3S_TOKEN=" + cfg.token in NodeEnv(cfg, node, url) + CAEnv(cfg)
    ensures node.role.Agent? ==> "K3S_URL=" + url in NodeEnv(cfg, node, url) + CAEnv(cfg)
  {
    var env := NodeEnv(cfg, node, url) + CAEnv(cfg);
    assert env[0] == "K3S_TOKEN=" + cfg.token;
    assert node.role.Agent? ==> env[1] == "K3S_URL=" + url;
  }

  lemma AgentOwn(cfg: ClusterConfig, node: NodeConfig, d: string, kubeDir: string)
    requires node.role.Agent?
    ensures OwnPart(cfg, node, d, kubeDir) == ["agent"]
  {
  }

  lemma ServerNamed(cfg: ClusterConfig, node: NodeConfig, d: string, kubeDir: string)
    requires node.role.Server?
    ensures d != "" ==> HasSAN(NodeCommand(cfg, node, d, kubeDir), NodeFQDN(node.name, d))
    ensures d != "" && cfg.datastoreEndpoint != "" ==> HasSAN(NodeCommand(cfg, node, d, kubeDir), ClusterAPIFQDN(cfg.name, d))
  {
    if d != "" {
      SANTagged(NodeFQDN(node.name, d), When(cfg.datastoreEndpoint != "", [ClusterAPIFQDN(cfg.name, d)]));
      CommandHolds(cfg, node, d, kubeDir, NodeFQDN(node.name, d));
      if cfg.datastoreEndpoint != "" {
        CommandHolds(cfg, node, d, kubeDir, ClusterAPIFQDN(cfg.name, d));
      }
    }
  }

  // ---------------------------------------------------------------------------------------
  // The other vectors
  // ---------------------------------------------------------------------------------------

  /** A flag and its value, as one argument or as two. */
  datatype Given = Given(flag: string, value: string, inline: bool)

  function One(g: Given): seq<string> {
    if g.inline then [g.flag + "=" + g.value] else [g.flag, g.value]
  }

  /** The flags spelled out. */
  function SpelledOut(gs: seq<Given>): seq<string> {
    if gs == [] then [] else One(gs[0]) + SpelledOut(gs[1..])
  }

  lemma OneValue(g: Given, flag: string)
    requires FlagName(g.flag)
    ensures Whole(One(g)) && Values(One(g), flag) == When(g.flag == flag, [g.value])
  {
    if g.inline {
      InlineValues(g.flag, g.value, flag);
    } else {
      PairValues(g.flag, g.value, flag);
    }
  }

  lemma {:induction false} NoneGiven(gs: seq<Given>, flag: string)
    requires forall g | g in gs :: FlagName(g.flag)
    ensures Whole(SpelledOut(gs))
    ensures (forall g | g in gs :: g.flag != flag) ==> Values(SpelledOut(gs), flag) == []
  {
    if gs != [] {
      OneValue(gs[0], flag);
      NoneGiven(gs[1..], flag);
      ValuesCat(One(gs[0]), SpelledOut(gs[1..]), flag);
    }
  }

  /** A flag given once has that value. */
  lemma {:induction false} GivenOnce(gs: seq<Given>, i: nat)
    requires i < |gs| && forall g | g in gs :: FlagName(g.flag)
    requires forall j: nat | j < |gs| && j != i :: gs[j].flag != gs[i].flag
    ensures Values(SpelledOut(gs), gs[i].flag) == [gs[i].value]
  {
    var flag := gs[i].flag;
    OneValue(gs[0], flag);
    NoneGiven(gs[1..], flag);
    ValuesCat(One(gs[0]), SpelledOut(gs[1..]), flag);
    if i > 0 {
      GivenOnce(gs[1..], i - 1);
    }
  }

  /** The flags bear these marks. */
  predicate MarkedWith(gs: seq<Given>, marks: seq<nat>) {
    |marks| == |gs| && forall i: nat | i < |gs| :: FlagName(gs[i].flag) && Mark(gs[i].flag) == marks[i]
  }

  predicate Apart(marks: seq<nat>) {
    forall i: nat, j: nat | i < j < |marks| :: marks[i] != marks[j]
  }

  lemma MarkedOnce(gs: seq<Given>, marks: seq<nat>, words: seq<string>, i: nat)
    requires MarkedWith(gs, marks) && Apart(marks) && i < |gs| && forall word | word in words :: !IsFlag(word)
    ensures Setting(words + SpelledOut(gs), gs[i].flag) == Some(gs[i].value)
  {
    GivenOnce(gs, i);
    PlainWords(words, gs[i].flag);
    ValuesCat(words, SpelledOut(gs), gs[i].flag);
  }

  lemma {:induction false} PlainWords(words: seq<string>, flag: string)
    requires forall word | word in words :: !IsFlag(word)
    ensures Whole(words) && Values(words, flag) == []
  {
    if words != [] {
      PlainWords(words[1..], flag);
    }
  }

  /** Tells the flags apart. */
  function Mark(flag: string): nat {
    if |flag| < 3 then 0 else 1000 * |flag| + flag[2] as int + if |flag| > 18 then flag[18] as int else 0
  }

  lemma MeshMarks()
    ensures FlagName("--name") && Mark("--name") == 6110
    ensures FlagName("--data-dir") && Mark("--data-dir") == 10100
    ensures FlagName("--listen-peer-urls") && Mark("--listen-peer-urls") == 18108
    ensures FlagName("--listen-client-urls") && Mark("--listen-client-urls") == 20216
    ensures FlagName("--initial-advertise-peer-urls") && Mark("--initial-advertise-peer-urls") == 29206
    ensures FlagName("--advertise-client-urls") && Mark("--advertise-client-urls") == 23142
    ensures FlagName("--initial-cluster") && Mark("--initial-cluster") == 17105
    ensures FlagName("--initial-cluster-state") && Mark("--initial-cluster-state") == 23220
    ensures FlagName("--initial-cluster-token") && Mark("--initial-cluster-token") == 23221
  {
  }

  lemma SecurityMarks()
    ensures FlagName("--peer-cert-file") && Mark("--peer-cert-file") == 16112
    ensures FlagName("--peer-key-file") && Mark("--peer-key-file") == 15112
    ensures FlagName("--peer-trusted-ca-file") && Mark("--peer-trusted-ca-file") == 22214
    ensures FlagName("--peer-client-cert-auth") && Mark("--peer-client-cert-auth") == 23157
    ensures FlagName("--cert-file") && Mark("--cert-file") == 11099
    ensures FlagName("--key-file") && Mark("--key-file") == 10107
    ensures FlagName("--trusted-ca-file") && Mark("--trusted-ca-file") == 17116
    ensures FlagName("--client-cert-auth") && Mark("--client-cert-auth") == 18099
  {
  }

  const MEMBER_MARKS: seq<nat> := [6110, 10100, 18108, 20216, 29206, 23142, 17105, 23220, 23221, 16112, 15112, 22214, 23157, 11099, 10107, 17116, 18099]

  lemma MemberMarksApart()
    ensures Apart(MEMBER_MARKS)
  {
  }

  /** The settings of a member's command. */
  function MemberGiven(name: string, peerURL: string, clientURL: string, mesh: string, token: string): seq<Given> {
    [Given("--name", name, false), Given("--data-dir", "/data/etcd", false),
     Given("--listen-peer-urls", "https://0.0.0.0:2380", false), Given("--listen-client-urls", "https://0.0.0.0:2379", false),
     Given("--initial-advertise-peer-urls", peerURL, false), Given("--advertise-client-urls", clientURL, false),
     Given("--initial-cluster", mesh, false), Given("--initial-cluster-state", "new", false), Given("--initial-cluster-token", token, false),
     Given("--peer-cert-file", "/etc/etcd/tls/server.crt", false), Given("--peer-key-file", "/etc/etcd/tls/server.key", false),
     Given("--peer-trusted-ca-file", "/etc/etcd/tls/ca.crt", false), Given("--peer-client-cert-auth", "true", true),
     Given("--cert-file", "/etc/etcd/tls/server.crt", false), Given("--key-file", "/etc/etcd/tls/server.key", false),
     Given("--trusted-ca-file", "/etc/etcd/tls/ca.crt", false), Given("--client-cert-auth", "true", true)]
  }

  lemma MemberMarked(name: string, peerURL: string, clientURL: string, mesh: string, token: string)
    ensures MarkedWith(MemberGiven(name, peerURL, clientURL, mesh, token), MEMBER_MARKS)
  {
    hide Mark;
    hide FlagName;
    MeshMarks();
    SecurityMarks();
  }

  lemma {:induction false} SpelledCat(a: seq<Given>, b: seq<Given>)
    ensures SpelledOut(a + b) == SpelledOut(a) + SpelledOut(b)
  {
    if a == [] {
      assert a + b == b;
    } else {
      assert (a + b)[1..] == a[1..] + b;
      SpelledCat(a[1..], b);
    }
  }

  lemma Spelled3(a: Given, b: Given, c: Given)
    requires !a.inline && !b.inline && !c.inline
    ensures SpelledOut([a, b, c]) == [a.flag, a.value, b.flag, b.value, c.flag, c.value]
  {
    assert [a, b, c][1..] == [b, c] && [b, c][1..] == [c];
    assert SpelledOut([c]) == One(c) + SpelledOut([]);
    assert SpelledOut([b, c]) == One(b) + SpelledOut([c]);
    assert SpelledOut([a, b, c]) == One(a) + SpelledOut([b, c]);
  }

  lemma Spelled4(a: Given, b: Given, c: Given, d: Given)
    requires !a.inline && !b.inline && !c.inline && d.inline
    ensures SpelledOut([a, b, c, d]) == [a.flag, a.value, b.flag, b.value, c.flag, c.value, d.flag + "=" + d.value]
  {
    SpelledCat([a, b, c], [d]);
    Spelled3(a, b, c);
    assert SpelledOut([d]) == One(d) + SpelledOut([]);
    assert [a, b, c] + [d] == [a, b, c, d];
  }

  lemma MeshSpelled(name: string, peerURL: string, clientURL: string, mesh: string, token: string)
    ensures SpelledOut(MemberGiven(name, peerURL, clientURL, mesh, token)[..9]) ==
      ["--name", name, "--data-dir", "/data/etcd", "--listen-peer-urls", "https://0.0.0.0:2380",
       "--listen-client-urls", "https://0.0.0.0:2379", "--initial-advertise-peer-urls", peerURL, "--advertise-client-urls", clientURL,
       "--initial-cluster", mesh, "--initial-cluster-state", "new", "--initial-cluster-token", token]
  {
    var gs := MemberGiven(name, peerURL, clientURL, mesh, token);
    Spelled3(gs[0], gs[1], gs[2]);
    Spelled3(gs[3], gs[4], gs[5]);
    Spelled3(gs[6], gs[7], gs[8]);
    SpelledCat([gs[0], gs[1], gs[2]], [gs[3], gs[4], gs[5]]);
    SpelledCat([gs[0], gs[1], gs[2]] + [gs[3], gs[4], gs[5]], [gs[6], gs[7], gs[8]]);
    assert gs[..9] == [gs[0], gs[1], gs[2]] + [gs[3], gs[4], gs[5]] + [gs[6], gs[7], gs[8]];
  }

  lemma SecuritySpelled(name: string, peerURL: string, clientURL: string, mesh: string, token: string)
    ensures SpelledOut(MemberGiven(name, peerURL, clientURL, mesh, token)[9..]) == EtcdTLSFlags()
  {
    var gs := MemberGiven(name, peerURL, clientURL, mesh, token);
    Spelled4(gs[9], gs[10], gs[11], gs[12]);
    Spelled4(gs[13], gs[14], gs[15], gs[16]);
    SpelledCat([gs[9], gs[10], gs[11], gs[12]], [gs[13], gs[14], gs[15], gs[16]]);
    assert gs[9..] == [gs[9], gs[10], gs[11], gs[12]] + [gs[13], gs[14], gs[15], gs[16]];
    KeyPaths();
  }

  lemma KeyPaths()
    ensures ETCD_TLS_MOUNT + "/server.crt" == "/etc/etcd/tls/server.crt" && ETCD_TLS_MOUNT + "/server.key" == "/etc/etcd/tls/server.key"
    ensures ETCD_TLS_MOUNT + "/ca.crt" == "/etc/etcd/tls/ca.crt"
    ensures "--peer-client-cert-auth" + "=" + "true" == "--peer-client-cert-auth=true" && "--client-cert-auth" + "=" + "true" == "--client-cert-auth=true"
  {
  }

  lemma MemberSpelled(c: string, member: string, d: string, mesh: string)
    ensures EtcdCommand(c, member, d, mesh) ==
      [ETCD_BINARY] + SpelledOut(MemberGiven(member, EtcdPeerURL(NodeFQDN(member, d)), EtcdClientURL(NodeFQDN(member, d)), mesh, EtcdClusterToken(c)))
  {
    hide SpelledOut;
    hide EtcdTLSFlags;
    hide EtcdPeerURL;
    hide EtcdClientURL;
    hide EtcdClusterToken;
    hide NodeFQDN;
    var peer, client, token := EtcdPeerURL(NodeFQDN(member, d)), EtcdClientURL(NodeFQDN(member, d)), EtcdClusterToken(c);
    var gs := MemberGiven(member, peer, client, mesh, token);
    MeshSpelled(member, peer, client, mesh, token);
    SecuritySpelled(member, peer, client, mesh, token);
    SpelledCat(gs[..9], gs[9..]);
    assert gs == gs[..9] + gs[9..];
    ListenURLs();
  }

  lemma ListenURLs()
    ensures "https://0.0.0.0:" + ETCD_PEER_PORT == "https://0.0.0.0:2380" && "https://0.0.0.0:" + ETCD_CLIENT_PORT == "https://0.0.0.0:2379"
  {
  }

  lemma TokenText(c: string)
    ensures EtcdClusterToken(c) == c + "-etcd"
  {
  }

  /** What etcd makes of a member's command. */
  lemma MemberSettings(name: string, peer: string, client: string, mesh: string, token: string)
    ensures
      var command := [ETCD_BINARY] + SpelledOut(MemberGiven(name, peer, client, mesh, token));
      && Setting(command, "--name") == Some(name) && Setting(command, "--data-dir") == Some("/data/etcd")
      && Setting(command, "--listen-peer-urls") == Some("https://0.0.0.0:2380")
      && Setting(command, "--listen-client-urls") == Some("https://0.0.0.0:2379")
      && Setting(command, "--initial-advertise-peer-urls") == Some(peer) && Setting(command, "--advertise-client-urls") == Some(client)
      && Setting(command, "--initial-cluster") == Some(mesh) && Setting(command, "--initial-cluster-state") == Some("new")
      && Setting(command, "--initial-cluster-token") == Some(token)
  {
    hide MarkedWith;
    hide Apart;
    hide SpelledOut;
    hide Setting;
    var gs, words := MemberGiven(name, peer, client, mesh, token), [ETCD_BINARY];
    assert !IsFlag(ETCD_BINARY);
    MemberMarked(name, peer, client, mesh, token);
    MemberMarksApart();
    forall i: nat | i < |gs|
      ensures Setting(words + SpelledOut(gs), gs[i].flag) == Some(gs[i].value)
    {
      MarkedOnce(gs, MEMBER_MARKS, words, i);
    }
    assert gs[0].flag == "--name" && gs[1].flag == "--data-dir" && gs[2].flag == "--listen-peer-urls" && gs[3].flag == "--listen-client-urls";
    assert gs[4].flag == "--initial-advertise-peer-urls" && gs[5].flag == "--advertise-client-urls" && gs[6].flag == "--initial-cluster";
    assert gs[7].flag == "--initial-cluster-state" && gs[8].flag == "--initial-cluster-token";
  }

  lemma MemberKeySettings(name: string, peer: string, client: string, mesh: string, token: string)
    ensures
      var command := [ETCD_BINARY] + SpelledOut(MemberGiven(name, peer, client, mesh, token));
      && Setting(command, "--peer-cert-file") == Some("/etc/etcd/tls/server.crt") && Setting(command, "--peer-key-file") == Some("/etc/etcd/tls/server.key")
      && Setting(command, "--peer-trusted-ca-file") == Some("/etc/etcd/tls/ca.crt") && Setting(command, "--peer-client-cert-auth") == Some("true")
      && Setting(command, "--cert-file") == Some("/etc/etcd/tls/server.crt") && Setting(command, "--key-file") == Some("/etc/etcd/tls/server.key")
      && Setting(command, "--trusted-ca-file") == Some("/etc/etcd/tls/ca.crt") && Setting(command, "--client-cert-auth") == Some("true")
  {
    hide MarkedWith;
    hide Apart;
    hide SpelledOut;
    hide Setting;
    var gs, words := MemberGiven(name, peer, client, mesh, token), [ETCD_BINARY];
    assert !IsFlag(ETCD_BINARY);
    MemberMarked(name, peer, client, mesh, token);
    MemberMarksApart();
    forall i: nat | i < |gs|
      ensures Setting(words + SpelledOut(gs), gs[i].flag) == Some(gs[i].value)
    {
      MarkedOnce(gs, MEMBER_MARKS, words, i);
    }
    assert gs[9].flag == "--peer-cert-file" && gs[10].flag == "--peer-key-file" && gs[11].flag == "--peer-trusted-ca-file";
    assert gs[12].flag == "--peer-client-cert-auth" && gs[13].flag == "--cert-file" && gs[14].flag == "--key-file";
    assert gs[15].flag == "--trusted-ca-file" && gs[16].flag == "--client-cert-auth";
  }

  lemma MemberFiles(volumes: seq<string>, dir: string)
    requires TLSSource(volumes) == Some(dir)
    ensures Finds(volumes, Some("/etc/etcd/tls/ca.crt"), dir, "ca.crt")
    ensures Finds(volumes, Some("/etc/etcd/tls/server.crt"), dir, "server.crt")
    ensures Finds(volumes, Some("/etc/etcd/tls/server.key"), dir, "server.key")
  {
    hide Finds;
    hide MountedAt;
    KeyFiles(volumes, dir);
    assert ETCD_TLS_MOUNT + "/" + "server.crt" == "/etc/etcd/tls/server.crt";
    assert ETCD_TLS_MOUNT + "/" + "server.key" == "/etc/etcd/tls/server.key";
    FindsAt(volumes, ETCD_TLS_MOUNT, dir, "server.crt");
    FindsAt(volumes, ETCD_TLS_MOUNT, dir, "server.key");
  }

  /** A member's command is read as that member of its mesh, on keys and data of its own. */
  lemma MemberReads(l: Launch, c: string, member: string, d: string, q: Quorate, dir: string)
    requires l.command == EtcdCommand(c, member, d, q.mesh) && q.cluster == c && TLSSource(l.volumes) == Some(dir)
    requires VolumeTarget(l.volumes) == Some("/data")
    ensures l.command != [] && l.command[0] == "/usr/local/bin/etcd"
    ensures Meshed(l.command, member, NodeFQDN(member, d), q) && DataOnVolume(l) && Secured(l, dir)
  {
    hide Setting;
    hide SpelledOut;
    hide MemberGiven;
    hide EtcdCommand;
    hide Finds;
    hide TLSSource;
    hide VolumeTarget;
    hide NodeFQDN;
    hide HttpsURL;
    hide EtcdClusterToken;
    var fqdn := NodeFQDN(member, d);
    var peer, client, token := EtcdPeerURL(fqdn), EtcdClientURL(fqdn), EtcdClusterToken(c);
    MemberSpelled(c, member, d, q.mesh);
    MemberSettings(member, peer, client, q.mesh, token);
    MemberKeySettings(member, peer, client, q.mesh, token);
    MemberFiles(l.volumes, dir);
    TokenText(c);
    assert "/data" + "/" + "etcd" == "/data/etcd";
  }

  // ---------------------------------------------------------------------------------------
  // The one-shots
  // ---------------------------------------------------------------------------------------

  const RESTORE_MARKS: seq<nat> := [6110, 17105, 29206, 23221, 10100]

  function RestoreGiven(name: string, mesh: string, peer: string, token: string): seq<Given> {
    [Given("--name", name, false), Given("--initial-cluster", mesh, false), Given("--initial-advertise-peer-urls", peer, false),
     Given("--initial-cluster-token", token, false), Given("--data-dir", "/data/etcd", false)]
  }

  lemma Spelled2(a: Given, b: Given)
    requires !a.inline && !b.inline
    ensures SpelledOut([a, b]) == [a.flag, a.value, b.flag, b.value]
  {
    assert [a, b][1..] == [b];
    assert SpelledOut([b]) == One(b) + SpelledOut([]);
    assert SpelledOut([a, b]) == One(a) + SpelledOut([b]);
  }

  lemma RestoreSpelled(name: string, mesh: string, peer: string, token: string)
    ensures SpelledOut(RestoreGiven(name, mesh, peer, token)) ==
      ["--name", name, "--initial-cluster", mesh, "--initial-advertise-peer-urls", peer, "--initial-cluster-token", token, "--data-dir", "/data/etcd"]
  {
    hide SpelledOut;
    var gs := RestoreGiven(name, mesh, peer, token);
    Spelled3(gs[0], gs[1], gs[2]);
    Spelled2(gs[3], gs[4]);
    SpelledCat([gs[0], gs[1], gs[2]], [gs[3], gs[4]]);
    assert gs == [gs[0], gs[1], gs[2]] + [gs[3], gs[4]];
  }

  lemma RestoreMarked(name: string, mesh: string, peer: string, token: string)
    ensures MarkedWith(RestoreGiven(name, mesh, peer, token), RESTORE_MARKS) && Apart(RESTORE_MARKS)
  {
    hide Mark;
    hide FlagName;
    MeshMarks();
  }

  /** What etcdctl makes of an unpacking command. */
  lemma UnpackSettings(words: seq<string>, name: string, mesh: string, peer: string, token: string)
    requires forall word | word in words :: !IsFlag(word)
    ensures
      var command := words +
        ["--name", name, "--initial-cluster", mesh, "--initial-advertise-peer-urls", peer, "--initial-cluster-token", token, "--data-dir", "/data/etcd"];
      && Setting(command, "--name") == Some(name) && Setting(command, "--initial-cluster") == Some(mesh)
      && Setting(command, "--initial-advertise-peer-urls") == Some(peer) && Setting(command, "--initial-cluster-token") == Some(token)
      && Setting(command, "--data-dir") == Some("/data/etcd")
  {
    hide MarkedWith;
    hide Apart;
    hide SpelledOut;
    hide Setting;
    var gs := RestoreGiven(name, mesh, peer, token);
    RestoreSpelled(name, mesh, peer, token);
    RestoreMarked(name, mesh, peer, token);
    forall i: nat | i < |gs|
      ensures Setting(words + SpelledOut(gs), gs[i].flag) == Some(gs[i].value)
    {
      MarkedOnce(gs, RESTORE_MARKS, words, i);
    }
    assert gs[0].flag == "--name" && gs[1].flag == "--initial-cluster" && gs[2].flag == "--initial-advertise-peer-urls";
    assert gs[3].flag == "--initial-cluster-token" && gs[4].flag == "--data-dir";
  }

  lemma ClientMarks()
    ensures FlagName("--endpoints") && Mark("--endpoints") == 11101
    ensures FlagName("--cacert") && Mark("--cacert") == 8099
    ensures FlagName("--cert") && Mark("--cert") == 6099
    ensures FlagName("--key") && Mark("--key") == 5107
  {
  }

  const CLIENT_MARKS: seq<nat> := [11101, 8099, 6099, 5107]

  function ClientGiven(url: string): seq<Given> {
    [Given("--endpoints", url, true), Given("--cacert", "/etc/etcd/tls/ca.crt", false), Given("--cert", "/etc/etcd/tls/client.crt", false),
     Given("--key", "/etc/etcd/tls/client.key", false)]
  }

  lemma ClientMarked(url: string)
    ensures MarkedWith(ClientGiven(url), CLIENT_MARKS) && Apart(CLIENT_MARKS)
  {
    hide Mark;
    hide FlagName;
    ClientMarks();
  }

  lemma ClientSpelled(url: string)
    ensures SpelledOut(ClientGiven(url)) ==
      ["--endpoints" + "=" + url, "--cacert", "/etc/etcd/tls/ca.crt", "--cert", "/etc/etcd/tls/client.crt", "--key", "/etc/etcd/tls/client.key"]
  {
    var gs := ClientGiven(url);
    Spelled3(gs[1], gs[2], gs[3]);
    assert gs[1..] == [gs[1], gs[2], gs[3]];
    assert SpelledOut(gs) == One(gs[0]) + SpelledOut(gs[1..]);
  }

  /** What etcdctl makes of a question. */
  lemma ClientSettings(url: string, key: string)
    requires !IsFlag(key)
    ensures
      var command := ["/usr/local/bin/etcdctl", "--endpoints" + "=" + url, "--cacert", "/etc/etcd/tls/ca.crt", "--cert", "/etc/etcd/tls/client.crt",
                      "--key", "/etc/etcd/tls/client.key", "get", key, "--keys-only"];
      && Setting(command, "--endpoints") == Some(url) && Setting(command, "--cacert") == Some("/etc/etcd/tls/ca.crt")
      && Setting(command, "--cert") == Some("/etc/etcd/tls/client.crt") && Setting(command, "--key") == Some("/etc/etcd/tls/client.key")
  {
    hide MarkedWith;
    hide Apart;
    hide Values;
    hide Whole;
    hide SpelledOut;
    hide One;
    var gs, words := ClientGiven(url), ["/usr/local/bin/etcdctl"];
    var ask: seq<string> := ["get", key, "--keys-only"];
    var command := ["/usr/local/bin/etcdctl", "--endpoints" + "=" + url, "--cacert", "/etc/etcd/tls/ca.crt", "--cert", "/etc/etcd/tls/client.crt",
                    "--key", "/etc/etcd/tls/client.key", "get", key, "--keys-only"];
    assert !IsFlag("/usr/local/bin/etcdctl");
    ClientSpelled(url);
    ClientMarked(url);
    forall i: nat | i < |gs|
      ensures Setting(words + SpelledOut(gs) + ask, gs[i].flag) == Some(gs[i].value)
    {
      MarkedOnce(gs, CLIENT_MARKS, words, i);
      NoneGivenWhole(gs, CLIENT_MARKS, words);
      ValuesCat(words + SpelledOut(gs), ask, gs[i].flag);
      Question(key, gs[i].flag);
    }
    assert command == words + SpelledOut(gs) + ask;
    assert gs[0].flag == "--endpoints" && gs[1].flag == "--cacert" && gs[2].flag == "--cert" && gs[3].flag == "--key";
  }

  lemma NoneGivenWhole(gs: seq<Given>, marks: seq<nat>, words: seq<string>)
    requires MarkedWith(gs, marks) && forall word | word in words :: !IsFlag(word)
    ensures Whole(words + SpelledOut(gs))
  {
    NoneGiven(gs, "");
    PlainWords(words, "");
    ValuesCat(words, SpelledOut(gs), "");
  }

  lemma Question(key: string, flag: string)
    requires !IsFlag(key)
    ensures Values(["get", key, "--keys-only"], flag) == []
  {
    hide Values;
    hide Whole;
    assert FlagName("--keys-only") && !IsFlag("get");
    PlainWords(["get", key], flag);
    LoneFlag("--keys-only", flag);
    ValuesCat(["get", key], ["--keys-only"], flag);
    assert ["get", key] + ["--keys-only"] == ["get", key, "--keys-only"];
  }

  lemma LoneFlag(key: string, flag: string)
    requires FlagName(key)
    ensures Values([key], flag) == []
  {
    BeforeAbsent(key, '=');
  }

  /** What k3s makes of the token rotation. */
  lemma TokenReads(held: string, token: string)
    ensures Reseals(TokenRotateArgs(held, token), held, token)
  {
    hide Values;
    hide Whole;
    var words: seq<string> := ["k3s", "token", "rotate"];
    TokenFlags();
    TokenValues(words, held, token, "--token");
    TokenValues(words, held, token, "--new-token");
    assert words + ["--token", held] + ["--new-token", token] == TokenRotateArgs(held, token);
  }

  lemma TokenFlags()
    ensures FlagName("--token") && FlagName("--new-token") && "--token" != "--new-token"
    ensures !IsFlag("k3s") && !IsFlag("token") && !IsFlag("rotate")
  {
  }

  lemma TokenValues(words: seq<string>, held: string, token: string, flag: string)
    requires forall word | word in words :: !IsFlag(word)
    ensures Values(words + ["--token", held] + ["--new-token", token], flag) == When(flag == "--token", [held]) + When(flag == "--new-token", [token])
  {
    hide Values;
    hide Whole;
    TokenFlags();
    PlainWords(words, flag);
    PairValues("--token", held, flag);
    PairValues("--new-token", token, flag);
    ValuesCat(words, ["--token", held], flag);
    ValuesCat(words + ["--token", held], ["--new-token", token], flag);
  }

  /** What k3s makes of the offline rotation. */
  lemma RotateSettings(dir: string)
    ensures Setting(["certificate", "rotate", "--data-dir", dir], "--data-dir") == Some(dir)
  {
    assert FlagName("--data-dir") && !IsFlag("certificate") && !IsFlag("rotate");
    PlainWords(["certificate", "rotate"], "--data-dir");
    PairValues("--data-dir", dir, "--data-dir");
    ValuesCat(["certificate", "rotate"], ["--data-dir", dir], "--data-dir");
    assert ["certificate", "rotate"] + ["--data-dir", dir] == ["certificate", "rotate", "--data-dir", dir];
  }

  // ---------------------------------------------------------------------------------------
  // What the record does not keep
  // ---------------------------------------------------------------------------------------

  function OutfitOf(cfg: ClusterConfig): Outfit {
    Outfit(cfg.envVars, cfg.dnsServers, cfg.caDir, cfg.manifests)
  }

  lemma {:induction false} SkipMounts(a: seq<string>, b: seq<string>, target: string)
    requires forall k | 0 <= k < |a| :: MountTarget(a[k]) != target
    ensures MountedAt(a + b, target) == MountedAt(b, target)
  {
    if a == [] {
      assert a + b == b;
    } else {
      assert (a + b)[1..] == a[1..] + b;
      SkipMounts(a[1..], b, target);
    }
  }

  lemma CAApart()
    ensures ':' !in CA_MOUNT && CA_MOUNT != K3S_MOUNT && CA_MOUNT != KUBECONFIG_MOUNT && CA_MOUNT != ETCD_TLS_MOUNT
    ensures |CA_MOUNT| > 5 && CA_MOUNT[1] == 'e' && MANIFESTS_DIR[1] == 'v'
  {
    assert CA_MOUNT[5] == 'k' && ETCD_TLS_MOUNT[5] == 'e' && KUBECONFIG_MOUNT[1] == 'm' && K3S_MOUNT[1] == 'v';
  }

  lemma {:induction false} BaseClean(path: string, c: char)
    requires c !in path
    ensures c !in Base(path)
  {
    if path != "" && path[|path| - 1] != '/' {
      BaseClean(path[..|path| - 1], c);
    }
  }

  /** Where a manifest goes. */
  lemma ManifestAt(path: string)
    requires HostPath(path)
    ensures MountSource(ManifestMount(path)) == path
    ensures MountTarget(ManifestMount(path)) == "/var/lib/rancher/k3s/server/manifests" + "/" + Base(path) != CA_MOUNT
  {
    var target := MANIFESTS_DIR + "/" + Base(path);
    BaseClean(path, ':');
    assert ':' !in MANIFESTS_DIR;
    PathSource(path, target);
    BeforeAbsent(target, ':');
    CAApart();
    assert target[1] == 'v';
  }

  /** None of these is the CA directory's mount. */
  predicate Beside(volumes: seq<string>) {
    forall v | v in volumes :: MountTarget(v) != CA_MOUNT
  }

  lemma DataBeside(c: string, name: string)
    ensures MountTarget(DataMount(c, name)) != CA_MOUNT
  {
    hide MountTarget;
    CAApart();
    OtherTargets();
    DataTarget(NodeVolumeName(c, name), K3S_MOUNT);
  }

  lemma KubeBeside(kubeDir: string)
    requires HostPath(kubeDir)
    ensures MountTarget(kubeDir + ":" + KUBECONFIG_MOUNT) != CA_MOUNT
  {
    hide MountTarget;
    CAApart();
    OtherTargets();
    PathSource(kubeDir, KUBECONFIG_MOUNT);
    BeforeAbsent(KUBECONFIG_MOUNT, ':');
  }

  lemma TLSBeside(dir: string)
    requires HostPath(dir)
    ensures MountTarget(dir + ":" + ETCD_TLS_RO) != CA_MOUNT
  {
    hide MountTarget;
    CAApart();
    PathSource(dir, ETCD_TLS_RO);
    TLSTarget();
  }

  lemma ManifestsBeside(manifests: seq<string>)
    requires forall m | m in manifests :: HostPath(m)
    ensures Beside(ManifestMounts(manifests))
  {
    hide MountTarget;
    hide ManifestMount;
    forall v | v in ManifestMounts(manifests)
      ensures MountTarget(v) != CA_MOUNT
    {
      var k :| 0 <= k < |manifests| && ManifestMounts(manifests)[k] == v;
      ManifestAt(manifests[k]);
    }
  }

  /** The mounts before the CA directory's are elsewhere. */
  lemma BesideCA(cfg: ClusterConfig, node: NodeConfig, kubeDir: string)
    requires kubeDir == "" || HostPath(kubeDir)
    requires cfg.datastoreTLSDir == "" || HostPath(cfg.datastoreTLSDir)
    requires forall m | m in cfg.manifests :: HostPath(m)
    ensures Beside([DataMount(cfg.name, node.name)] + ServerMounts(cfg, node, kubeDir))
  {
    hide MountTarget;
    hide ManifestMounts;
    hide HostPath;
    hide DataMount;
    DataBeside(cfg.name, node.name);
    ManifestsBeside(cfg.manifests);
    if kubeDir != "" {
      KubeBeside(kubeDir);
    }
    if cfg.datastoreTLSDir != "" {
      TLSBeside(cfg.datastoreTLSDir);
    }
  }

  lemma CAFound(cfg: ClusterConfig, node: NodeConfig, kubeDir: string)
    requires kubeDir == "" || HostPath(kubeDir)
    requires cfg.datastoreTLSDir == "" || HostPath(cfg.datastoreTLSDir)
    requires (forall m | m in cfg.manifests :: HostPath(m)) && HostPath(cfg.caDir)
    ensures MountedAt([DataMount(cfg.name, node.name)] + ServerMounts(cfg, node, kubeDir) + CAMounts(cfg), CA_MOUNT) == Some(cfg.caDir)
  {
    hide MountTarget;
    hide ServerMounts;
    var front, target := [DataMount(cfg.name, node.name)] + ServerMounts(cfg, node, kubeDir), CA_MOUNT + ":ro";
    BesideCA(cfg, node, kubeDir);
    SkipMounts(front, CAMounts(cfg), CA_MOUNT);
    CAApart();
    assert cfg.caDir + ":" + CA_MOUNT + ":ro" == cfg.caDir + ":" + target;
    PathSource(cfg.caDir, target);
    assert target == CA_MOUNT + [':'] + "ro";
    BeforeSeparator(CA_MOUNT, ':', "ro");
  }

  /** Every launched k3s node has the outfit of its configuration. */
  lemma NodeOutfitted(cfg: ClusterConfig, node: NodeConfig, url: string, d: string, kubeDir: string)
    requires node.role.IsK3s() && (kubeDir == "" || HostPath(kubeDir))
    requires cfg.datastoreTLSDir == "" || HostPath(cfg.datastoreTLSDir)
    requires forall m | m in cfg.manifests :: HostPath(m)
    ensures Outfitted(NodeLaunch(cfg, node, url, d, kubeDir), node.role, OutfitOf(cfg))
  {
    hide MountedAt;
    hide NodeCommand;
    hide ServerMounts;
    hide Finds;
    hide DataMount;
    var l := NodeLaunch(cfg, node, url, d, kubeDir);
    EnvAfter(cfg, node, url);
    if HostPath(cfg.caDir) {
      CAFound(cfg, node, kubeDir);
      FindsAt(l.volumes, CA_MOUNT, cfg.caDir, "ca-bundle.pem");
      assert CA_MOUNT + "/" + "ca-bundle.pem" == "/etc/k3ac/ca/ca-bundle.pem";
    }
  }

  lemma EnvAfter(cfg: ClusterConfig, node: NodeConfig, url: string)
    requires node.role.IsK3s()
    ensures
      var env, own := NodeEnv(cfg, node, url) + CAEnv(cfg), if node.role.Agent? then 2 else 1;
      own <= |env| && env[own..] == cfg.envVars + (if cfg.caDir == "" then [] else ["SSL_CERT_FILE=/etc/k3ac/ca/ca-bundle.pem"])
  {
    CAText();
    var env, own := NodeEnv(cfg, node, url) + CAEnv(cfg), if node.role.Agent? then 2 else 1;
    assert env[own..] == cfg.envVars + CAEnv(cfg);
  }

  lemma CAText()
    ensures "SSL_CERT_FILE=" + CA_BUNDLE_PATH == "SSL_CERT_FILE=/etc/k3ac/ca/ca-bundle.pem"
  {
  }

  /** The bootstrap server has the manifests where k3s looks for them. */
  lemma ManifestsFound(cfg: ClusterConfig, node: NodeConfig, url: string, d: string, kubeDir: string)
    requires node.role.Server? && kubeDir != "" && forall m | m in cfg.manifests :: HostPath(m)
    ensures MountsManifests(NodeLaunch(cfg, node, url, d, kubeDir).volumes, cfg.manifests)
  {
    hide MountTarget;
    hide MountSource;
    hide NodeCommand;
    hide NodeEnv;
    hide ManifestMount;
    hide Base;
    var volumes := NodeLaunch(cfg, node, url, d, kubeDir).volumes;
    forall k: nat | k < |cfg.manifests|
      ensures Binds(volumes, cfg.manifests[k], "/var/lib/rancher/k3s/server/manifests" + "/" + Base(cfg.manifests[k]))
    {
      ManifestAt(cfg.manifests[k]);
      MountIn(cfg, node, kubeDir, k);
      var v := ManifestMount(cfg.manifests[k]);
      assert v in volumes;
    }
  }

  lemma MountIn(cfg: ClusterConfig, node: NodeConfig, kubeDir: string, k: nat)
    requires node.role.Server? && kubeDir != "" && k < |cfg.manifests|
    ensures ManifestMount(cfg.manifests[k]) in [DataMount(cfg.name, node.name)] + ServerMounts(cfg, node, kubeDir) + CAMounts(cfg)
  {
    hide ManifestMount;
    assert ManifestMounts(cfg.manifests)[k] == ManifestMount(cfg.manifests[k]);
  }
}
