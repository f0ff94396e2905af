/** What the CLI makes of the launcher's vectors, and whose containers and volumes they name. */
module Launches {
  import opened Types
  import opened Text
  import opened Names
  import opened Recipes
  import opened Meaning
  import opened Records

  /** buildRunArgs. */
  method BuildRunArgs(cfg: ClusterConfig, node: NodeConfig, serverURL: string, domain: string, kubeDir: string)
    returns (args: seq<string>)
    ensures args == NodeRunArgs(cfg, node, serverURL, domain, kubeDir)
    ensures PlainImage(cfg.image) && node.role.IsK3s() ==>
              ReadRun(args).Some? && Serves(ReadRun(args).value, cfg.name, node, domain, CommonOf(cfg, serverURL))
    ensures PlainImage(cfg.image) && node.role.Server? && ReadableKeys(cfg) && (kubeDir == "" || HostPath(kubeDir))
            && (forall m | m in cfg.manifests :: HostPath(m)) ==>
              ReadRun(args).Some? && KeyedBy(ReadRun(args).value, node, cfg.datastoreTLSDir)
  {
    hide Serves;
    hide KeyedBy;
    hide NodeLaunch;
    hide ReadRun;
    hide HostPath;
    hide ReadableKeys;
    hide NodeSizing;
    hide NodeSetting;
    hide NodeNetwork;
    hide NodeCommand;
    var command := BuildCommand(cfg, node, domain, kubeDir);
    ghost var image := [cfg.image] + command;
    ghost var network := NodeNetwork(cfg, image);
    ghost var setting := NodeSetting(cfg, node, serverURL, kubeDir, network);
    args := BuildSizing(["run", "--detach"], node, domain, setting);
    args := BuildSetting(args, cfg, node, serverURL, kubeDir, network);
    args := BuildNetwork(args, cfg, image);
    args := args + [cfg.image] + command;
    assert args == args + [];
    RunArgsMean(cfg, node, serverURL, domain, kubeDir);
  }

  lemma RunArgsMean(cfg: ClusterConfig, node: NodeConfig, url: string, d: string, kubeDir: string)
    ensures
      var args := NodeRunArgs(cfg, node, url, d, kubeDir);
      && (PlainImage(cfg.image) && node.role.IsK3s() ==>
            ReadRun(args).Some? && Serves(ReadRun(args).value, cfg.name, node, d, CommonOf(cfg, url)))
      && (PlainImage(cfg.image) && node.role.Server? && ReadableKeys(cfg) && (kubeDir == "" || HostPath(kubeDir))
          && (forall m | m in cfg.manifests :: HostPath(m)) ==>
            ReadRun(args).Some? && KeyedBy(ReadRun(args).value, node, cfg.datastoreTLSDir))
  {
    hide Serves;
    hide KeyedBy;
    hide NodeLaunch;
    hide NodeRunArgs;
    hide ReadRun;
    hide HostPath;
    hide ReadableKeys;
    if PlainImage(cfg.image) && node.role.IsK3s() {
      NodeRunReads(cfg, node, url, d, kubeDir);
      NodeServes(cfg, node, url, d, kubeDir);
      if node.role.Server? && ReadableKeys(cfg) && (kubeDir == "" || HostPath(kubeDir)) && forall m | m in cfg.manifests :: HostPath(m) {
        ServerKeyed(cfg, node, url, d, kubeDir);
      }
    }
  }

  function EtcdLaunch(cfg: ClusterConfig, node: NodeConfig, d: string, mesh: string, tlsDir: string): Launch {
    Launch([NodeFQDN(node.name, d)], EtcdVolumes(node.name, tlsDir), NodeLabels(cfg.name, Datastore), [],
           EtcdImage(cfg), EtcdCommand(cfg.name, node.name, d, mesh),
           SimpleMachine(true, [DecInt(TruncDiv(node.memory, MIB)) + "MB"], cfg.network))
  }

  function LBLaunch(cfg: ClusterConfig, d: string, configDir: string): Launch {
    Launch([NodeFQDN(ApiLBName(cfg.name), d)], LBVolumes(configDir), NodeLabels(cfg.name, LB), [], API_LB_IMAGE, [],
           SimpleMachine(true, [DecInt(LB_MEMORY / MIB) + "MB"], cfg.network))
  }

  function RestoreLaunch(cfg: ClusterConfig, member: string, d: string, mesh: string, snapDir: string, file: string): Launch {
    Launch([RestoreHelper(member)],
      [EtcdVolumeName(member) + ":" + ETCD_DATA_MOUNT, snapDir + ":" + ETCD_BACKUP_MOUNT + ":ro"], [], ["ETCDCTL_API=3"],
      EtcdImage(cfg),
      [ETCDCTL_BINARY, "snapshot", "restore", ETCD_BACKUP_MOUNT + "/" + file,
       "--name", member,
       "--initial-cluster", mesh,
       "--initial-advertise-peer-urls", EtcdPeerURL(NodeFQDN(member, d)),
       "--initial-cluster-token", EtcdClusterToken(cfg.name),
       "--data-dir", ETCD_DATA_DIR],
      SimpleMachine(false, [], ""))
  }

  function VerifyLaunch(cfg: ClusterConfig, fqdn: string, tlsDir: string, key: string): Launch {
    Launch([VerifyHelper(cfg.name)], [tlsDir + ":" + ETCD_TLS_RO], [], ["ETCDCTL_API=3"], EtcdImage(cfg),
      [ETCDCTL_BINARY, "--endpoints=" + EtcdClientURL(fqdn),
       "--cacert", ETCD_TLS_MOUNT + "/ca.crt", "--cert", ETCD_TLS_MOUNT + "/client.crt", "--key", ETCD_TLS_MOUNT + "/client.key",
       "get", key, "--keys-only"],
      SimpleMachine(false, [], cfg.network))
  }

  function CertRotateLaunch(cfg: ClusterConfig, node: string): Launch {
    Launch([CertRotateHelper(node)], [DataMount(cfg.name, node)], [], [], cfg.image,
           ["certificate", "rotate", "--data-dir", K3S_MOUNT], SimpleMachine(false, [], cfg.network))
  }

  /** The launch is of a node container of cluster c that mounts this volume, or none. */
  ghost predicate OfNode(l: Launch, c: string, id: string, role: Role, volume: Option<string>) {
    && l.names == [id] && Owned(id) == Node(c, role) && LabelValue(l.labels, CLUSTER_KEY) == Some(c)
    && NamedVolume(l.volumes) == volume
  }

  /** The launch is of a helper of cluster c that mounts this volume of the cluster, or none. */
  ghost predicate OfHelper(l: Launch, c: string, id: string, volume: Option<string>) {
    && l.names == [id] && Owned(id) == Helper(c) && LabelValue(l.labels, CLUSTER_KEY) == None
    && NamedVolume(l.volumes) == volume
    && (volume.Some? ==> OwnedVolume(volume.value).Of(c))
  }

  lemma EtcdImageRuns(cfg: ClusterConfig)
    requires UsableImage(cfg.datastoreImage)
    ensures PlainImage(EtcdImage(cfg))
  {
    assert DEFAULT_ETCD_IMAGE[0] == 'q';
  }

  /** What the members of this configuration's datastore have in common. */
  function QuorateOf(cfg: ClusterConfig, mesh: string): Quorate {
    Quorate(cfg.name, EtcdImage(cfg), cfg.network, mesh)
  }

  lemma EtcdMeans(cfg: ClusterConfig, node: NodeConfig, d: string, mesh: string, tlsDir: string)
    requires HostPath(tlsDir)
    ensures RunsMember(EtcdLaunch(cfg, node, d, mesh, tlsDir), node.name, NodeFQDN(node.name, d), node.memory, QuorateOf(cfg, mesh), tlsDir)
  {
    hide Setting;
    hide EtcdCommand;
    hide NodeLabels;
    hide NodeFQDN;
    hide TLSSource;
    hide Meshed;
    hide Secured;
    hide DataOnVolume;
    hide LabelledAs;
    hide EtcdImage;
    hide VolumeTarget;
    var l := EtcdLaunch(cfg, node, d, mesh, tlsDir);
    EtcdLaunchTLS(node.name, tlsDir);
    OtherTargets();
    DataFound(l.volumes, EtcdVolumeName(node.name), ETCD_DATA_MOUNT);
    MegabytesOf(TruncDiv(node.memory, MIB));
    NodeLabelled(cfg.name, Datastore);
    MemberReads(l, cfg.name, node.name, d, QuorateOf(cfg, mesh), tlsDir);
  }

  lemma EtcdReads(cfg: ClusterConfig, n: NodeInfo, d: string, mesh: string, tlsDir: string)
    requires CleanText(cfg.name) && Numbered(n, cfg.name, d) && n.role.Datastore? && UsableImage(cfg.datastoreImage) && HostPath(tlsDir)
    ensures
      var l := EtcdLaunch(cfg, NodeConfigFromInfo(n), d, mesh, tlsDir);
      && ReadRun(EtcdRunArgs(cfg, NodeConfigFromInfo(n), d, mesh, tlsDir)) == Some(l)
      && OfNode(l, cfg.name, n.id, Datastore, Some(EtcdVolumeName(n.name)))
      && TLSSource(l.volumes) == Some(tlsDir)
      && RunsMember(l, n.name, n.id, n.memory, QuorateOf(cfg, mesh), tlsDir)
  {
    hide RunsMember;
    var node := NodeConfigFromInfo(n);
    EtcdMeans(cfg, node, d, mesh, tlsDir);
    EtcdImageRuns(cfg);
    NumberedOwner(n, cfg.name, d);
    SimpleRunReads(true, n.id, [DecInt(TruncDiv(node.memory, MIB)) + "MB"], EtcdVolumes(n.name, tlsDir), NodeLabels(cfg.name, Datastore), [],
                   cfg.network, EtcdImage(cfg), EtcdCommand(cfg.name, n.name, d, mesh));
    LabelsRead(cfg.name, Datastore);
    FirstNamed(EtcdVolumes(n.name, tlsDir), EtcdVolumeName(n.name), ETCD_DATA_MOUNT);
    EtcdLaunchTLS(n.name, tlsDir);
  }

  lemma LBReads(cfg: ClusterConfig, d: string, configDir: string)
    requires CleanText(cfg.name) && HostPath(configDir)
    ensures ReadRun(LBRunArgs(cfg, d, configDir)) == Some(LBLaunch(cfg, d, configDir))
    ensures LBNode(LBLaunch(cfg, d, configDir), cfg.name, d, configDir)
    ensures RunsProxy(LBLaunch(cfg, d, configDir), cfg.network, configDir)
  {
    hide RunsProxy;
    var memory := [DecInt(LB_MEMORY / MIB) + "MB"];
    LBVectorReads(cfg, d, configDir, memory);
    LBIsNode(cfg, d, configDir);
    LBMeans(cfg, d, configDir);
  }

  lemma LBMeans(cfg: ClusterConfig, d: string, configDir: string)
    requires HostPath(configDir)
    ensures RunsProxy(LBLaunch(cfg, d, configDir), cfg.network, configDir)
  {
    hide MountedAt;
    hide LabelledAs;
    hide NodeLabels;
    hide NodeFQDN;
    LBLaunchConfig(configDir);
    NodeLabelled(cfg.name, LB);
    MegabytesOf(LB_MEMORY / MIB);
  }

  /** A load balancer of cluster c over this configuration. */
  ghost predicate LBNode(l: Launch, c: string, d: string, configDir: string) {
    OfNode(l, c, NodeFQDN(ApiLBName(c), d), LB, None) && MountedAt(l.volumes, LB_CONFIG_MOUNT) == Some(configDir)
  }

  lemma LBVectorReads(cfg: ClusterConfig, d: string, configDir: string, memory: seq<string>)
    ensures ReadRun(SimpleRunArgs(true, NodeFQDN(ApiLBName(cfg.name), d), memory, LBVolumes(configDir), NodeLabels(cfg.name, LB), [],
                                  cfg.network, API_LB_IMAGE, []))
         == Some(LBLaunch(cfg, d, configDir).(machine := SimpleMachine(true, memory, cfg.network)))
  {
    assert API_LB_IMAGE[0] == 'h';
    SimpleRunReads(true, NodeFQDN(ApiLBName(cfg.name), d), memory, LBVolumes(configDir), NodeLabels(cfg.name, LB), [], cfg.network, API_LB_IMAGE, []);
  }

  lemma LBIsNode(cfg: ClusterConfig, d: string, configDir: string)
    requires CleanText(cfg.name) && HostPath(configDir)
    ensures LBNode(LBLaunch(cfg, d, configDir), cfg.name, d, configDir)
  {
    hide LBVolumes;
    hide MountedAt;
    hide NamedVolume;
    hide LabelValue;
    hide NodeLabels;
    hide Owned;
    OwnedLB(cfg.name, d);
    LabelsRead(cfg.name, LB);
    LBLaunchConfig(configDir);
    LBUnnamed(configDir);
  }

  lemma OwnedLB(c: string, d: string)
    requires CleanText(c)
    ensures Owned(NodeFQDN(ApiLBName(c), d)) == Node(c, LB)
  {
    OwnedNode(c, LB, 0, d);
  }

  lemma LBUnnamed(configDir: string)
    requires HostPath(configDir)
    ensures NamedVolume(LBVolumes(configDir)) == None
  {
    var target := LB_CONFIG_MOUNT + ":ro";
    OnlyPaths(configDir, target);
    assert configDir + ":" + LB_CONFIG_MOUNT + ":ro" == configDir + ":" + target;
  }

  lemma RestoreMeans(cfg: ClusterConfig, member: string, d: string, mesh: string, snapDir: string, file: string)
    ensures Unpacks(RestoreLaunch(cfg, member, d, mesh, snapDir, file), member, NodeFQDN(member, d), QuorateOf(cfg, mesh), snapDir, file)
  {
    hide Setting;
    hide NodeFQDN;
    hide HttpsURL;
    hide Finds;
    hide VolumeTarget;
    hide MountedAt;
    hide EtcdImage;
    hide EtcdClusterToken;
    var l := RestoreLaunch(cfg, member, d, mesh, snapDir, file);
    var words := ["/usr/local/bin/etcdctl", "snapshot", "restore", ETCD_BACKUP_MOUNT + "/" + file];
    UnpackWords(file);
    UnpackSettings(words, member, mesh, EtcdPeerURL(NodeFQDN(member, d)), EtcdClusterToken(cfg.name));
    assert l.command == words + ["--name", member, "--initial-cluster", mesh, "--initial-advertise-peer-urls", EtcdPeerURL(NodeFQDN(member, d)),
                                 "--initial-cluster-token", EtcdClusterToken(cfg.name), "--data-dir", "/data/etcd"];
    TokenText(cfg.name);
    OtherTargets();
    DataFound(l.volumes, EtcdVolumeName(member), ETCD_DATA_MOUNT);
    assert "/data" + "/" + "etcd" == "/data/etcd";
    if HostPath(snapDir) {
      BackupMounted(member, snapDir);
      FindsAt(l.volumes, ETCD_BACKUP_MOUNT, snapDir, file);
    }
  }

  lemma UnpackWords(file: string)
    ensures !IsFlag("/usr/local/bin/etcdctl") && !IsFlag("snapshot") && !IsFlag("restore") && !IsFlag(ETCD_BACKUP_MOUNT + "/" + file)
  {
    assert (ETCD_BACKUP_MOUNT + "/" + file)[0] == '/';
  }

  lemma BackupMounted(member: string, snapDir: string)
    requires HostPath(snapDir)
    ensures MountedAt([EtcdVolumeName(member) + ":" + ETCD_DATA_MOUNT, snapDir + ":" + ETCD_BACKUP_MOUNT + ":ro"], ETCD_BACKUP_MOUNT) == Some(snapDir)
  {
    OtherTargets();
    DataTarget(EtcdVolumeName(member), ETCD_DATA_MOUNT);
    assert ETCD_BACKUP_MOUNT[1] == 'b' && ETCD_DATA_MOUNT[1] == 'd' && ':' !in ETCD_BACKUP_MOUNT;
    SecondMount(EtcdVolumeName(member) + ":" + ETCD_DATA_MOUNT, snapDir, ETCD_BACKUP_MOUNT);
  }

  lemma SecondMount(first: string, dir: string, target: string)
    requires MountTarget(first) != target && HostPath(dir) && ':' !in target
    ensures MountedAt([first, dir + ":" + target + ":ro"], target) == Some(dir)
  {
    hide MountTarget;
    assert dir + ":" + target + ":ro" == dir + ":" + (target + ":ro");
    PathSource(dir, target + ":ro");
    assert target + ":ro" == target + [':'] + "ro";
    BeforeSeparator(target, ':', "ro");
    var volumes := [first, dir + ":" + target + ":ro"];
    assert volumes[1..] == [dir + ":" + target + ":ro"];
  }

  lemma RestoreReads(cfg: ClusterConfig, n: NodeInfo, d: string, mesh: string, snapDir: string, file: string)
    requires CleanText(cfg.name) && Numbered(n, cfg.name, d) && n.role.Datastore? && UsableImage(cfg.datastoreImage)
    ensures
      var l := RestoreLaunch(cfg, n.name, d, mesh, snapDir, file);
      && ReadRun(RestoreArgs(cfg, RestoreHelper(n.name), n.name, d, mesh, snapDir, file)) == Some(l)
      && OfHelper(l, cfg.name, RestoreHelper(n.name), Some(EtcdVolumeName(n.name)))
      && Unpacks(l, n.name, n.id, QuorateOf(cfg, mesh), snapDir, file)
  {
    hide Unpacks;
    var l := RestoreLaunch(cfg, n.name, d, mesh, snapDir, file);
    RestoreMeans(cfg, n.name, d, mesh, snapDir, file);
    EtcdImageRuns(cfg);
    NumberedOwner(n, cfg.name, d);
    NumberedHelpers(n, cfg.name, d);
    SimpleRunReads(false, RestoreHelper(n.name), [], l.volumes, [], l.env, "", l.image, l.command);
    FirstNamed(l.volumes, EtcdVolumeName(n.name), ETCD_DATA_MOUNT);
  }

  lemma NoNamedVolume(path: string, target: string)
    requires path == "" || HostPath(path)
    ensures NamedVolume([path + ":" + target]) == None
  {
    if path == "" {
      assert (path + ":" + target)[0] == ':';
      assert MountSource(path + ":" + target) == "";
    } else {
      OnlyPaths(path, target);
    }
  }

  lemma VerifyMeans(cfg: ClusterConfig, fqdn: string, tlsDir: string, key: string)
    requires (tlsDir == "" || HostPath(tlsDir)) && !IsFlag(key)
    ensures AsksFor(VerifyLaunch(cfg, fqdn, tlsDir, key), fqdn, EtcdImage(cfg), cfg.network, tlsDir, key)
  {
    hide Setting;
    hide HttpsURL;
    hide Finds;
    hide MountedAt;
    hide EtcdImage;
    var l, url := VerifyLaunch(cfg, fqdn, tlsDir, key), EtcdClientURL(fqdn);
    ClientSettings(url, key);
    ClientPaths(url);
    assert l.command == ["/usr/local/bin/etcdctl", "--endpoints" + "=" + url, "--cacert", "/etc/etcd/tls/ca.crt", "--cert", "/etc/etcd/tls/client.crt",
                         "--key", "/etc/etcd/tls/client.key", "get", key, "--keys-only"];
    ClientMounted(tlsDir);
    KeyFiles(l.volumes, tlsDir);
  }

  lemma ClientPaths(url: string)
    ensures "--endpoints=" + url == "--endpoints" + "=" + url
    ensures ETCD_TLS_MOUNT + "/ca.crt" == "/etc/etcd/tls/ca.crt" && ETCD_TLS_MOUNT + "/client.crt" == "/etc/etcd/tls/client.crt"
    ensures ETCD_TLS_MOUNT + "/client.key" == "/etc/etcd/tls/client.key"
  {
  }

  lemma ClientMounted(tlsDir: string)
    requires tlsDir == "" || HostPath(tlsDir)
    ensures TLSSource([tlsDir + ":" + ETCD_TLS_RO]) == Some(tlsDir)
  {
    TLSTarget();
    BeforeSeparator(tlsDir, ':', ETCD_TLS_RO);
    var volume := tlsDir + ":" + ETCD_TLS_RO;
    assert volume == tlsDir + [':'] + ETCD_TLS_RO && volume[|tlsDir| + 1..] == ETCD_TLS_RO;
  }

  lemma VerifyReads(cfg: ClusterConfig, fqdn: string, tlsDir: string, key: string)
    requires CleanText(cfg.name) && UsableImage(cfg.datastoreImage) && (tlsDir == "" || HostPath(tlsDir)) && !IsFlag(key)
    ensures
      var l := VerifyLaunch(cfg, fqdn, tlsDir, key);
      && ReadRun(VerifyArgs(cfg, VerifyHelper(cfg.name), fqdn, tlsDir, key)) == Some(l)
      && OfHelper(l, cfg.name, VerifyHelper(cfg.name), None)
      && AsksFor(l, fqdn, EtcdImage(cfg), cfg.network, tlsDir, key)
  {
    hide AsksFor;
    VerifyMeans(cfg, fqdn, tlsDir, key);
    var l := VerifyLaunch(cfg, fqdn, tlsDir, key);
    EtcdImageRuns(cfg);
    OwnedClusterHelpers(cfg.name);
    SimpleRunReads(false, VerifyHelper(cfg.name), [], l.volumes, [], l.env, cfg.network, l.image, l.command);
    NoNamedVolume(tlsDir, ETCD_TLS_RO);
  }

  lemma RotateMeans(cfg: ClusterConfig, node: string)
    ensures Reissues(CertRotateLaunch(cfg, node), cfg.image, cfg.network, NodeVolumeName(cfg.name, node))
  {
    hide Setting;
    hide NamedVolume;
    hide VolumeTarget;
    var l := CertRotateLaunch(cfg, node);
    RotateSettings(K3S_MOUNT);
    OtherTargets();
    FirstNamed(l.volumes, NodeVolumeName(cfg.name, node), K3S_MOUNT);
    DataFound(l.volumes, NodeVolumeName(cfg.name, node), K3S_MOUNT);
  }

  lemma CertRotateReads(cfg: ClusterConfig, n: NodeInfo, d: string)
    requires CleanText(cfg.name) && Numbered(n, cfg.name, d) && n.role.Server? && PlainImage(cfg.image)
    ensures
      var l := CertRotateLaunch(cfg, n.name);
      && ReadRun(CertRotateArgs(cfg, n.name)) == Some(l)
      && OfHelper(l, cfg.name, CertRotateHelper(n.name), Some(NodeVolumeName(cfg.name, n.name)))
      && Reissues(l, cfg.image, cfg.network, NodeVolumeName(cfg.name, n.name))
  {
    hide Reissues;
    var l := CertRotateLaunch(cfg, n.name);
    RotateMeans(cfg, n.name);
    NumberedOwner(n, cfg.name, d);
    NumberedHelpers(n, cfg.name, d);
    SimpleRunReads(false, CertRotateHelper(n.name), [], l.volumes, [], [], cfg.network, cfg.image, l.command);
    FirstNamed(l.volumes, NodeVolumeName(cfg.name, n.name), K3S_MOUNT);
  }

  /** A k3s node's own launch. */
  lemma NodeReads(cfg: ClusterConfig, n: NodeInfo, url: string, d: string, kubeDir: string)
    requires CleanText(cfg.name) && Numbered(n, cfg.name, d) && n.role.IsK3s() && PlainImage(cfg.image)
    ensures
      var l := NodeLaunch(cfg, NodeConfigFromInfo(n), url, d, kubeDir);
      && ReadRun(NodeRunArgs(cfg, NodeConfigFromInfo(n), url, d, kubeDir)) == Some(l)
      && OfNode(l, cfg.name, n.id, n.role, Some(NodeVolumeName(cfg.name, n.name)))
      && Serves(l, cfg.name, NodeConfigFromInfo(n), d, CommonOf(cfg, url))
  {
    hide Serves;
    var node := NodeConfigFromInfo(n);
    NumberedOwner(n, cfg.name, d);
    NodeRunReads(cfg, node, url, d, kubeDir);
    LabelsRead(cfg.name, n.role);
    LaunchVolumes(cfg, node, url, d, kubeDir, "");
    NodeServes(cfg, node, url, d, kubeDir);
  }
}
