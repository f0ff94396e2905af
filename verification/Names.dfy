/** Derived names (provider/apple/node.go): node, container, volume and endpoint names, and
    the reader that tells from a name which cluster it belongs to. */
module Names {
  import opened Types
  import opened Text

  const API_PORT := "6443"
  const ETCD_CLIENT_PORT := "2379"
  const ETCD_PEER_PORT := "2380"

  predicate NameChar(c: char) {
    'a' <= c <= 'z' || '0' <= c <= '9' || c == '-'
  }

  predicate CleanText(s: string) {
    forall k | 0 <= k < |s| :: NameChar(s[k])
  }

  /** The cluster names the launcher is meant for. */
  predicate ValidName(c: string) {
    c != "" && CleanText(c)
  }

  /** <cluster>-<kind>-, what the numbered node names of one kind start with. */
  function Prefix(c: string, kind: string): string { c + "-" + kind + "-" }

  function ServerName(c: string, i: nat): string { Prefix(c, "server") + Dec(i) }

  function AgentName(c: string, i: nat): string { Prefix(c, "agent") + Dec(i) }

  function EtcdName(c: string, i: nat): string { Prefix(c, "etcd") + Dec(i) }

  function ApiLBName(c: string): string { c + "-" + "api" }

  function NodeFQDN(name: string, domain: string): string {
    if domain == "" then name else name + "." + domain
  }

  function ClusterAPIFQDN(c: string, domain: string): string { c + "-" + "api" + "." + domain }

  function EtcdClusterToken(c: string): string { c + "-" + "etcd" }

  function SnapshotHelper(c: string): string { c + "-" + "etcd" + "-" + "snapshot" }

  function VerifyHelper(c: string): string { c + "-" + "etcd" + "-" + "verify" }

  function RestoreHelper(node: string): string { node + "-" + "restore" }

  function CertRotateHelper(node: string): string { node + "-" + "certrotate" }

  /** strings.ToLower on one character. The Kelvin sign and the dotted capital I are the only
      characters outside ASCII that lower to an ASCII letter. */
  function LowerChar(c: char): char {
    if 'A' <= c <= 'Z' then (c as int - 'A' as int + 'a' as int) as char
    else if c == '\U{212A}' then 'k'
    else if c == '\U{0130}' then 'i'
    else c
  }

  function SanitizeChar(c: char): char {
    var l := LowerChar(c);
    if NameChar(l) then l else '-'
  }

  function Sanitized(s: string): (r: string)
    ensures |r| == |s| && CleanText(r)
  {
    seq(|s|, i requires 0 <= i < |s| => SanitizeChar(s[i]))
  }

  /** sanitizeVolumeName. */
  method SanitizeVolumeName(s: string) returns (b: string)
    ensures b == Sanitized(s)
  {
    b := "";
    for i := 0 to |s|
      invariant b == Sanitized(s)[..i]
    {
      var r := LowerChar(s[i]);
      if 'a' <= r <= 'z' || '0' <= r <= '9' || r == '-' {
        b := b + [r];
      } else {
        b := b + "-";
      }
    }
  }

  function NodeVolumeName(c: string, node: string): string {
    Sanitized(c + "-" + node + "-" + "k3s")
  }

  function EtcdVolumeName(node: string): string {
    Sanitized(node + "-" + "data")
  }

  /** Sanitizing leaves exactly the clean texts alone, so it can merge two names only when
      one of them is not clean. */
  lemma SanitizedFixed(s: string)
    ensures Sanitized(s) == s <==> CleanText(s)
  {
    if CleanText(s) {
      assert forall k | 0 <= k < |s| :: Sanitized(s)[k] == s[k];
    }
  }

  lemma SanitizedCat(a: string, b: string)
    ensures Sanitized(a + b) == Sanitized(a) + Sanitized(b)
  {
  }

  lemma SanitizedClean(a: string, b: string)
    requires CleanText(b)
    ensures Sanitized(a + b) == Sanitized(a) + b
  {
    SanitizedCat(a, b);
    SanitizedFixed(b);
  }

  function JoinHostPort(host: string, port: string): string {
    if ':' in host || '%' in host then "[" + host + "]:" + port else host + ":" + port
  }

  function HttpsURL(host: string, port: string): string {
    "https://" + JoinHostPort(host, port)
  }

  /** strings.Join. */
  function Join(parts: seq<string>, sep: string): string {
    if parts == [] then ""
    else if |parts| == 1 then parts[0]
    else Join(parts[..|parts| - 1], sep) + sep + parts[|parts| - 1]
  }

  function EtcdPeer(c: string, domain: string, i: nat): string {
    var name := EtcdName(c, i);
    name + "=" + HttpsURL(NodeFQDN(name, domain), ETCD_PEER_PORT)
  }

  function EtcdPeers(c: string, domain: string, count: nat): seq<string> {
    seq(count, i requires 0 <= i < count => EtcdPeer(c, domain, i + 1))
  }

  /** The --initial-cluster value of a quorum of count members. */
  function EtcdMesh(c: string, domain: string, count: nat): string {
    Join(EtcdPeers(c, domain, count), ",")
  }

  function EtcdClientURLs(c: string, domain: string, count: nat): seq<string> {
    seq(count, i requires 0 <= i < count => HttpsURL(NodeFQDN(EtcdName(c, i + 1), domain), ETCD_CLIENT_PORT))
  }

  function EtcdEndpoint(c: string, domain: string, count: nat): string {
    Join(EtcdClientURLs(c, domain, count), ",")
  }

  /** etcdInitialCluster. */
  method EtcdInitialCluster(c: string, domain: string, count: nat) returns (r: string)
    ensures r == EtcdMesh(c, domain, count)
  {
    var parts := [];
    for i := 0 to count
      invariant |parts| == i
      invariant forall k: nat | k < i :: parts[k] == EtcdPeer(c, domain, k + 1)
    {
      var name := EtcdName(c, i + 1);
      var peer := HttpsURL(NodeFQDN(name, domain), ETCD_PEER_PORT);
      var part := name + "=" + peer;
      assert part == EtcdPeer(c, domain, i + 1);
      parts := parts + [part];
    }
    assert parts == EtcdPeers(c, domain, count);
    r := Join(parts, ",");
  }

  /** etcdDatastoreEndpoint. */
  method EtcdDatastoreEndpoint(c: string, domain: string, count: nat) returns (r: string)
    ensures r == EtcdEndpoint(c, domain, count)
  {
    var parts := [];
    for i := 0 to count
      invariant parts == EtcdClientURLs(c, domain, count)[..i]
    {
      var host := NodeFQDN(EtcdName(c, i + 1), domain);
      parts := parts + [HttpsURL(host, ETCD_CLIENT_PORT)];
    }
    assert parts == EtcdClientURLs(c, domain, count);
    r := Join(parts, ",");
  }

  /** clusterAPIEndpoint: the load balancer, else the bootstrap server by name, else its
      current address. */
  function ClusterAPIEndpoint(cfg: ClusterConfig, server: string, ip: Addr, domain: string): string {
    if cfg.provisionAPILB && domain != "" then HttpsURL(ClusterAPIFQDN(cfg.name, domain), API_PORT)
    else if domain != "" then HttpsURL(NodeFQDN(server, domain), API_PORT)
    else HttpsURL(ip, API_PORT)
  }

  /** validateEtcdMemberCount. */
  function ValidateEtcdMemberCount(n: int): (r: Outcome)
    ensures r.Pass? <==> n >= 3 && n % 2 == 1
  {
    if n < 3 || n % 2 == 0 then Fail(BadMemberCount) else Pass
  }

  // ---------------------------------------------------------------------------------------
  // Reading a name back
  // ---------------------------------------------------------------------------------------

  /** What a container or volume name stands for. A helper is a one-shot container a
      cluster's operation runs beside its nodes. */
  datatype Owner =
    | Node(cluster: string, role: Role)
    | Helper(cluster: string)
    | Foreign
  {
    predicate Of(c: string) {
      !Foreign? && cluster == c
    }
  }

  function ReadNumbered(stem: string): Owner {
    match LastSegment(stem)
    case None => Foreign
    case Some((c, kind)) =>
      if kind == "server" then Node(c, Server)
      else if kind == "agent" then Node(c, Agent)
      else if kind == "etcd" then Node(c, Datastore)
      else Foreign
  }

  function ReadNode(name: string): Owner {
    match LastSegment(name)
    case None => Foreign
    case Some((stem, last)) =>
      if last == "api" then Node(stem, LB)
      else if last != "" && AllDigits(last) then ReadNumbered(stem)
      else Foreign
  }

  function ReadName(name: string): Owner {
    match LastSegment(name)
    case None => Foreign
    case Some((stem, last)) =>
      if last == "snapshot" || last == "verify" then
        match LastSegment(stem)
        case None => Foreign
        case Some((c, kind)) => if kind == "etcd" then Helper(c) else Foreign
      else if last == "restore" || last == "certrotate" then
        match ReadNode(stem)
        case Node(c, _) => Helper(c)
        case _ => Foreign
      else ReadNode(name)
  }

  /** The owner of a container, read from its ID. Node names hold no dot, so the domain, if
      there is one, starts at the first dot. */
  function Owned(id: string): Owner {
    ReadName(Before(id, '.'))
  }

  /** c from c + "-" + c. */
  function Half(s: string): Option<string> {
    var h := |s| / 2;
    if |s| % 2 == 1 && s[h] == '-' && s[..h] == s[h + 1..] then Some(s[..h]) else None
  }

  /** The owner of a named volume, read from its name. */
  function OwnedVolume(v: string): Owner {
    match LastSegment(v)
    case None => Foreign
    case Some((stem, last)) =>
      if last == "data" then
        match ReadNode(stem)
        case Node(c, r) => if r.Datastore? then Node(c, Datastore) else Foreign
        case _ => Foreign
      else if last == "k3s" then
        match ReadNode(stem)
        case Node(cc, r) =>
          if r.IsK3s() then
            match Half(cc)
            case Some(c) => Node(c, r)
            case None => Foreign
          else Foreign
        case _ => Foreign
      else Foreign
  }

  /** The name of node number i of a role; the load balancer is the only one of its kind. */
  function NodeName(c: string, role: Role, i: nat): string {
    match role
    case Server => ServerName(c, i)
    case Agent => AgentName(c, i)
    case Datastore => EtcdName(c, i)
    case LB => ApiLBName(c)
  }

  /** The named volume of a node: its own data volume, or none for the load balancer. */
  function VolumeOf(c: string, role: Role, name: string): Option<string> {
    match role
    case Datastore => Some(EtcdVolumeName(name))
    case LB => None
    case _ => Some(NodeVolumeName(c, name))
  }

  const SEGMENTS := {"api", "server", "agent", "etcd", "snapshot", "verify", "restore", "certrotate", "k3s", "data"}

  lemma NoDash(seg: string)
    requires AllDigits(seg) || seg in SEGMENTS
    ensures '-' !in seg
  {
  }

  /** A number is none of the words a name can end in, and those words differ. */
  lemma SegmentsDiffer(last: string)
    requires last != "" && AllDigits(last)
    ensures last !in SEGMENTS
  {
    assert IsDigit(last[0]);
  }

  lemma WordsDiffer()
    ensures "api" !in {"snapshot", "verify", "restore", "certrotate"}
    ensures "server" != "agent" && "server" != "etcd" && "agent" != "etcd"
    ensures "restore" !in {"snapshot", "verify"} && "certrotate" !in {"snapshot", "verify"}
    ensures "k3s" != "data"
  {
    assert "api"[0] == 'a' && "snapshot"[0] == 's' && "verify"[0] == 'v' && "restore"[0] == 'r' && "certrotate"[0] == 'c';
  }

  lemma ReadNumberedName(c: string, kind: string, i: nat)
    requires kind in {"server", "agent", "etcd"}
    ensures ReadName(Prefix(c, kind) + Dec(i)) == ReadNode(Prefix(c, kind) + Dec(i)) == ReadNumbered(c + "-" + kind)
    ensures LastSegment(c + "-" + kind) == Some((c, kind))
  {
    NoDash(kind);
    NoDash(Dec(i));
    SegmentsDiffer(Dec(i));
    LastSegmentOf(c + "-" + kind, Dec(i));
    LastSegmentOf(c, kind);
  }

  /** Reading a node name gives back the cluster and the role it was built from. */
  lemma ReadNodeName(c: string, role: Role, i: nat)
    ensures ReadNode(NodeName(c, role, i)) == Node(c, role)
    ensures ReadName(NodeName(c, role, i)) == Node(c, role)
  {
    WordsDiffer();
    match role
    case LB =>
      NoDash("api");
      LastSegmentOf(c, "api");
    case Server => ReadNumberedName(c, "server", i);
    case Agent => ReadNumberedName(c, "agent", i);
    case Datastore => ReadNumberedName(c, "etcd", i);
  }

  lemma ReadClusterHelper(c: string, last: string)
    requires last in {"snapshot", "verify"}
    ensures ReadName(c + "-" + "etcd" + "-" + last) == Helper(c)
  {
    NoDash("etcd");
    NoDash(last);
    LastSegmentOf(c, "etcd");
    LastSegmentOf(c + "-" + "etcd", last);
  }

  lemma ReadNodeHelper(c: string, role: Role, i: nat, last: string)
    requires last in {"restore", "certrotate"}
    ensures ReadName(NodeName(c, role, i) + "-" + last) == Helper(c)
  {
    ReadNodeName(c, role, i);
    NoDash(last);
    LastSegmentOf(NodeName(c, role, i), last);
    WordsDiffer();
  }

  lemma CleanNames(c: string, role: Role, i: nat)
    requires CleanText(c)
    ensures CleanText(NodeName(c, role, i)) && '.' !in NodeName(c, role, i)
  {
    var d := Dec(i);
    assert forall k | 0 <= k < |d| :: IsDigit(d[k]) && NameChar(d[k]);
    assert CleanText(NodeName(c, role, i));
    assert !NameChar('.');
  }

  lemma OwnedFQDN(name: string, domain: string)
    requires '.' !in name
    ensures Owned(NodeFQDN(name, domain)) == ReadName(name)
  {
    if domain == "" {
      BeforeAbsent(name, '.');
    } else {
      assert name + "." + domain == name + ['.'] + domain;
      BeforeSeparator(name, '.', domain);
    }
  }

  /** The container ID of a node tells its cluster and role, under any domain. */
  lemma OwnedNode(c: string, role: Role, i: nat, domain: string)
    requires CleanText(c)
    ensures Owned(NodeFQDN(NodeName(c, role, i), domain)) == Node(c, role)
  {
    CleanNames(c, role, i);
    ReadNodeName(c, role, i);
    OwnedFQDN(NodeName(c, role, i), domain);
  }

  lemma OwnedBare(name: string)
    requires CleanText(name)
    ensures Owned(name) == ReadName(name)
  {
    assert !NameChar('.');
    BeforeAbsent(name, '.');
  }

  lemma CleanWith(a: string, word: string)
    requires CleanText(a) && word in SEGMENTS
    ensures CleanText(a + "-" + word)
  {
    assert CleanText(word);
    assert CleanText("-");
  }

  /** The one-shot containers run for a cluster. */
  lemma OwnedClusterHelpers(c: string)
    requires CleanText(c)
    ensures Owned(SnapshotHelper(c)) == Helper(c)
    ensures Owned(VerifyHelper(c)) == Helper(c)
  {
    ReadClusterHelper(c, "snapshot");
    ReadClusterHelper(c, "verify");
    CleanWith(c, "etcd");
    CleanWith(c + "-" + "etcd", "snapshot");
    CleanWith(c + "-" + "etcd", "verify");
    OwnedBare(SnapshotHelper(c));
    OwnedBare(VerifyHelper(c));
  }

  /** The one-shot containers run for a node. */
  lemma OwnedNodeHelpers(c: string, role: Role, i: nat)
    requires CleanText(c)
    ensures Owned(RestoreHelper(NodeName(c, role, i))) == Helper(c)
    ensures Owned(CertRotateHelper(NodeName(c, role, i))) == Helper(c)
  {
    var node := NodeName(c, role, i);
    CleanNames(c, role, i);
    ReadNodeHelper(c, role, i, "restore");
    ReadNodeHelper(c, role, i, "certrotate");
    CleanWith(node, "restore");
    CleanWith(node, "certrotate");
    OwnedBare(RestoreHelper(node));
    OwnedBare(CertRotateHelper(node));
  }

  lemma OwnedEtcdVolume(c: string, i: nat)
    requires CleanText(c)
    ensures OwnedVolume(EtcdVolumeName(EtcdName(c, i))) == Node(c, Datastore)
  {
    var name := NodeName(c, Datastore, i);
    CleanNames(c, Datastore, i);
    CleanWith(name, "data");
    SanitizedFixed(name + "-" + "data");
    NoDash("data");
    LastSegmentOf(name, "data");
    ReadNodeName(c, Datastore, i);
  }

  lemma DoubledName(c: string, role: Role, i: nat)
    requires role.IsK3s()
    ensures c + "-" + NodeName(c, role, i) == NodeName(c + "-" + c, role, i)
  {
    var tail := "-" + (if role.Server? then "server" else "agent") + "-" + Dec(i);
    assert NodeName(c, role, i) == c + tail;
    assert NodeName(c + "-" + c, role, i) == c + "-" + c + tail;
  }

  lemma OwnedK3sVolume(c: string, role: Role, i: nat)
    requires CleanText(c) && role.IsK3s()
    ensures OwnedVolume(NodeVolumeName(c, NodeName(c, role, i))) == Node(c, role)
  {
    var stem := c + "-" + NodeName(c, role, i);
    CleanNames(c, role, i);
    assert CleanText(stem);
    CleanWith(stem, "k3s");
    SanitizedFixed(stem + "-" + "k3s");
    DoubledName(c, role, i);
    NoDash("k3s");
    LastSegmentOf(stem, "k3s");
    WordsDiffer();
    ReadNodeName(c + "-" + c, role, i);
    HalfOf(c);
  }

  /** The volume of a node tells its cluster and role. */
  lemma OwnedNodeVolume(c: string, role: Role, i: nat)
    requires CleanText(c)
    ensures VolumeOf(c, role, NodeName(c, role, i)).Some? ==>
              OwnedVolume(VolumeOf(c, role, NodeName(c, role, i)).value) == Node(c, role)
  {
    if role.Datastore? {
      OwnedEtcdVolume(c, i);
    } else if role.IsK3s() {
      OwnedK3sVolume(c, role, i);
    }
  }

  lemma HalfOf(c: string)
    ensures Half(c + "-" + c) == Some(c)
  {
    var s := c + "-" + c;
    assert |s| / 2 == |c|;
    assert s[..|c|] == c && s[|c| + 1..] == c;
  }

  lemma NodeNameInjective(c: string, role: Role, i: nat, c': string, role': Role, i': nat)
    requires NodeName(c, role, i) == NodeName(c', role', i')
    ensures c == c' && role == role' && (role.LB? || i == i')
  {
    ReadNodeName(c, role, i);
    ReadNodeName(c', role', i');
    if !role.LB? {
      var stem := Prefix(c, if role.Server? then "server" else if role.Agent? then "agent" else "etcd");
      assert Dec(i) == (stem + Dec(i))[|stem|..];
      assert Dec(i') == (stem + Dec(i'))[|stem|..];
      DecInjective(i, i');
    }
  }

  lemma FQDNInjective(a: string, b: string, domain: string)
    requires NodeFQDN(a, domain) == NodeFQDN(b, domain)
    ensures a == b
  {
    if domain != "" {
      assert |a + "." + domain| == |a| + 1 + |domain|;
      assert a == (a + "." + domain)[..|a|];
      assert b == (b + "." + domain)[..|b|];
    }
  }

  /** Two nodes share a container ID or a volume only when they are the same node of the
      same cluster. */
  lemma NodesNeverCollide(c: string, role: Role, i: nat, domain: string, c': string, role': Role, i': nat, domain': string)
    requires CleanText(c) && CleanText(c')
    requires
      var name, name' := NodeName(c, role, i), NodeName(c', role', i');
      || NodeFQDN(name, domain) == NodeFQDN(name', domain')
      || (VolumeOf(c, role, name).Some? && VolumeOf(c, role, name) == VolumeOf(c', role', name'))
    ensures c == c' && role == role' && (role.LB? || i == i')
  {
    CleanNames(c, role, i);
    CleanNames(c', role', i');
    if NodeFQDN(NodeName(c, role, i), domain) == NodeFQDN(NodeName(c', role', i'), domain') {
      BareName(NodeName(c, role, i), domain);
      BareName(NodeName(c', role', i'), domain');
    } else {
      OwnedNodeVolume(c, role, i);
      OwnedNodeVolume(c', role', i');
      VolumeNamesNode(c, role, NodeName(c, role, i), NodeName(c', role', i'));
    }
    NodeNameInjective(c, role, i, c', role', i');
  }

  /** What follows the cluster name in the name of a numbered node. */
  function NameTail(role: Role, i: nat): string
    requires !role.LB?
  {
    "-" + (if role.Server? then "server" else if role.Agent? then "agent" else "etcd") + "-" + Dec(i)
  }

  lemma TailClean(c: string, role: Role, i: nat, word: string)
    requires !role.LB? && word in SEGMENTS
    ensures NodeName(c, role, i) == c + NameTail(role, i)
    ensures CleanText(NameTail(role, i) + "-" + word)
  {
    assert NodeName("", role, i) == NameTail(role, i);
    CleanNames("", role, i);
    CleanWith(NameTail(role, i), word);
  }

  /** A volume name sees its cluster's name sanitized only. */
  lemma VolumeSanitized(c: string, role: Role, i: nat)
    requires !role.LB?
    ensures VolumeOf(c, role, NodeName(c, role, i)) == VolumeOf(Sanitized(c), role, NodeName(Sanitized(c), role, i))
  {
    var s := Sanitized(c);
    var word := if role.Datastore? then "data" else "k3s";
    var rest := NameTail(role, i) + "-" + word;
    TailClean(c, role, i, word);
    TailClean(s, role, i, word);
    SanitizedFixed(s);
    if role.Datastore? {
      assert c + NameTail(role, i) + "-" + word == c + rest && s + NameTail(role, i) + "-" + word == s + rest;
      SanitizedClean(c, rest);
      SanitizedClean(s, rest);
    } else {
      assert c + "-" + (c + NameTail(role, i)) + "-" + word == c + ("-" + c) + rest;
      assert s + "-" + (s + NameTail(role, i)) + "-" + word == s + ("-" + s) + rest;
      SanitizedClean(c + ("-" + c), rest);
      SanitizedClean(s + ("-" + s), rest);
      SanitizedCat(c, "-" + c);
      SanitizedCat(s, "-" + s);
      SanitizedCat("-", c);
      SanitizedCat("-", s);
    }
  }

  /** Two volumes, of servers, agents or etcd members of any two clusters of any names, are one
      exactly when the cluster names sanitize alike and it is the same node of both. */
  lemma VolumesCollide(c: string, role: Role, i: nat, c': string, role': Role, i': nat)
    requires !role.LB? && !role'.LB?
    ensures VolumeOf(c, role, NodeName(c, role, i)) == VolumeOf(c', role', NodeName(c', role', i'))
       <==> Sanitized(c) == Sanitized(c') && role == role' && i == i'
  {
    VolumeSanitized(c, role, i);
    VolumeSanitized(c', role', i');
    if VolumeOf(c, role, NodeName(c, role, i)) == VolumeOf(c', role', NodeName(c', role', i')) {
      NodesNeverCollide(Sanitized(c), role, i, "", Sanitized(c'), role', i', "");
    }
  }

  /** Outside the clean names two clusters can share a volume. */
  lemma UncleanNamesShareAVolume()
    ensures "A" != "a" && NodeVolumeName("A", ServerName("A", 1)) == NodeVolumeName("a", ServerName("a", 1))
  {
    VolumesCollide("A", Server, 1, "a", Server, 1);
    assert SanitizeChar('A') == SanitizeChar('a');
  }

  lemma VolumeNamesNode(c: string, role: Role, name: string, name': string)
    requires CleanText(c) && CleanText(name) && CleanText(name') && !role.LB?
    requires VolumeOf(c, role, name) == VolumeOf(c, role, name')
    ensures name == name'
  {
    if role.Datastore? {
      CleanWith(name, "data");
      CleanWith(name', "data");
      SanitizedFixed(name + "-" + "data");
      SanitizedFixed(name' + "-" + "data");
      SameStem(name, name', "data");
    } else {
      CleanWith(c + "-" + name, "k3s");
      CleanWith(c + "-" + name', "k3s");
      SanitizedFixed(c + "-" + name + "-" + "k3s");
      SanitizedFixed(c + "-" + name' + "-" + "k3s");
      SameStem(c + "-" + name, c + "-" + name', "k3s");
      assert name == (c + "-" + name)[|c| + 1..];
      assert name' == (c + "-" + name')[|c| + 1..];
    }
  }

  lemma SameStem(a: string, b: string, word: string)
    requires a + "-" + word == b + "-" + word
    ensures a == b
  {
    assert |a| == |b|;
    assert a == (a + "-" + word)[..|a|];
    assert b == (b + "-" + word)[..|b|];
  }

  lemma BareName(name: string, domain: string)
    requires '.' !in name
    ensures Before(NodeFQDN(name, domain), '.') == name
  {
    if domain == "" {
      BeforeAbsent(name, '.');
    } else {
      assert name + "." + domain == name + ['.'] + domain;
      BeforeSeparator(name, '.', domain);
    }
  }
}
