/** Certificate rotation (provider/apple/rotate.go). */
module Rotation {
  import opened Types
  import opened Names
  import opened Ordering
  import opened Recipes
  import opened Meaning
  import opened Records
  import opened World
  import opened Runtime
  import opened Fidelity
  import opened Lifecycle
  import opened EtcdTLS
  import opened Frames
  import opened Launches

  /** The roles that load the datastore's TLS files. */
  predicate Backs(role: Role) {
    role.Datastore? || role.Server?
  }

  /** Everything the running members and servers trust is one CA generation. */
  ghost predicate OneCA(w: World, nodes: seq<NodeInfo>) {
    forall a, b | a in nodes && b in nodes && Backs(a.role) && Backs(b.role) && Up(w, a.id) && Up(w, b.id) ::
      At(w, a.id).value.ca == At(w, b.id).value.ca
  }

  /** Each member mounts its own bundle and each server the clients'. */
  ghost predicate Wired(w: World, nodes: seq<NodeInfo>, c: string) {
    forall n | n in nodes && Backs(n.role) ::
      At(w, n.id).Some? && TLSSource(At(w, n.id).value.launch.volumes) == Some(TLSDir(w.root, c, BundleOf(n)))
  }

  /** All bundles hold generation g, and what runs is on it. */
  ghost predicate OnGeneration(w: World, nodes: seq<NodeInfo>, c: string, g: nat) {
    forall n | n in nodes && Backs(n.role) :: Holds(w, c, BundleOf(n), g) && (Up(w, n.id) ==> At(w, n.id).value.ca == Some(g))
  }

  /** Whatever of the members and servers is started next, all that run will be on one CA. */
  ghost predicate Coherent(w: World, nodes: seq<NodeInfo>, c: string) {
    Wired(w, nodes, c) && exists g: nat :: OnGeneration(w, nodes, c, g)
  }

  /** What rotation keeps at every point. */
  ghost predicate Rotating(w0: World, w: World, nodes: seq<NodeInfo>, c: string) {
    && Framed(w0, w, ROLES)
    && (Closed(w0, nodes) ==> Closed(w, nodes))
    && (Wired(w0, nodes, c) && OneCA(w0, nodes) ==> OneCA(w, nodes))
    && OnRecord(w, c, nodes)
  }

  ghost function RotatingFrom(w0: World, nodes: seq<NodeInfo>, c: string): World -> bool {
    w => Rotating(w0, w, nodes, c)
  }

  // ---------------------------------------------------------------------------------------
  // Steps
  // ---------------------------------------------------------------------------------------

  /** The same containers run, on the same CA. */
  ghost predicate SameRunning(w: World, w': World, nodes: seq<NodeInfo>) {
    forall n | n in nodes :: Up(w', n.id) == Up(w, n.id) && (Up(w, n.id) ==> At(w', n.id).value.ca == At(w, n.id).value.ca)
  }

  lemma RotatingSame(w0: World, w: World, w': World, nodes: seq<NodeInfo>, c: string)
    requires Rotating(w0, w, nodes, c) && Framed(w0, w', ROLES) && SameRunning(w, w', nodes) && OnRecord(w', c, nodes)
    ensures Rotating(w0, w', nodes, c)
  {
  }

  lemma RotatingFilesFree(w0: World, nodes: seq<NodeInfo>, c: string)
    ensures FilesFree(RotatingFrom(w0, nodes, c))
  {
    forall w, path, file: File {:trigger Written(w, path, file)} | Rotating(w0, w, nodes, c) && !file.Record?
      ensures Rotating(w0, Written(w, path, file), nodes, c)
    {
      RotatingWritten(w0, w, nodes, c, path, file);
    }
  }

  lemma RotatingWritten(w0: World, w: World, nodes: seq<NodeInfo>, c: string, path: string, file: File)
    requires Rotating(w0, w, nodes, c) && (file.Record? ==> Readdressed(nodes, file.state.nodes))
    ensures Rotating(w0, Written(w, path, file), nodes, c)
  {
    FramedWritten(w0, w, ROLES, path, file);
    assert forall x :: At(Written(w, path, file), x) == At(w, x);
    RecordWritten(w, c, nodes, path, file);
    RotatingSame(w0, w, Written(w, path, file), nodes, c);
  }

  lemma RotatingSteady(w0: World, nodes: seq<NodeInfo>, c: string, id: string)
    ensures Steady(RotatingFrom(w0, nodes, c), id)
  {
    forall w, cmd {:trigger Ran(w, id, cmd)} | Rotating(w0, w, nodes, c)
      ensures Rotating(w0, Ran(w, id, cmd), nodes, c)
    {
      FramedSteps(w0, w, ROLES, id, cmd);
      SameRecord(w, Ran(w, id, cmd), c, nodes);
      RotatingSame(w0, w, Ran(w, id, cmd), nodes, c);
    }
  }

  lemma RotatingStopSafe(w0: World, nodes: seq<NodeInfo>, c: string)
    requires UniqueIds(nodes)
    ensures StopSafe(RotatingFrom(w0, nodes, c), nodes)
  {
    var p := RotatingFrom(w0, nodes, c);
    forall w, i: nat {:trigger Stopped(w, OrderedByRole(nodes, false)[i].id)} |
      i < |OrderedByRole(nodes, false)| && p(w) && AllDown(w, OrderedByRole(nodes, false), i)
      ensures p(Stopped(w, OrderedByRole(nodes, false)[i].id))
    {
      var id := OrderedByRole(nodes, false)[i].id;
      if Closed(w0, nodes) {
        StopClosed(w, nodes, i);
      }
      FramedSteps(w0, w, ROLES, id, Remount);
      SameRecord(w, Stopped(w, id), c, nodes);
      OneCAStopped(w, nodes, id);
    }
  }

  lemma OneCAStopped(w: World, nodes: seq<NodeInfo>, id: string)
    ensures OneCA(w, nodes) ==> OneCA(Stopped(w, id), nodes)
  {
    assert forall x :: Up(Stopped(w, id), x) ==> Up(w, x) && At(Stopped(w, id), x) == At(w, x);
  }

  /** Starting something other than a member or server leaves them as they are. */
  lemma RotatingStartSafe(w0: World, w1: World, nodes: seq<NodeInfo>, c: string)
    requires UniqueIds(nodes)
    ensures StartSafe(RotatingFrom(w0, nodes, c), w1, nodes, {Datastore, Server})
  {
    var p := RotatingFrom(w0, nodes, c);
    forall w, i: nat {:trigger Started(w, OrderedByRole(nodes, true)[i].id)} |
      i < |OrderedByRole(nodes, true)| && OrderedByRole(nodes, true)[i].role !in {Datastore, Server}
      && p(w) && AllServing(w, OrderedByRole(nodes, true), i)
      ensures p(Started(w, OrderedByRole(nodes, true)[i].id))
    {
      var node := OrderedByRole(nodes, true)[i];
      OrderedMembers(nodes, true);
      assert node in nodes;
      if Closed(w0, nodes) {
        StartClosed(w, nodes, i);
      }
      FramedSteps(w0, w, ROLES, node.id, Remount);
      SameRecord(w, Started(w, node.id), c, nodes);
      OneCAStarted(w, nodes, node);
    }
    forall n | n in nodes
      ensures Steady(p, n.id)
    {
      RotatingSteady(w0, nodes, c, n.id);
    }
  }

  lemma OneCAStarted(w: World, nodes: seq<NodeInfo>, node: NodeInfo)
    requires UniqueIds(nodes) && node in nodes && !Backs(node.role)
    ensures OneCA(w, nodes) ==> OneCA(Started(w, node.id), nodes)
  {
    forall n | n in nodes && Backs(n.role)
      ensures At(Started(w, node.id), n.id) == At(w, n.id)
    {
      assert n.id != node.id;
    }
  }

  // ---------------------------------------------------------------------------------------
  // Booting on the new generation
  // ---------------------------------------------------------------------------------------

  /** The new bundles are on disk, and every member and server that runs has read them. */
  ghost predicate OnNewCA(w0: World, w: World, nodes: seq<NodeInfo>, c: string, g: nat) {
    && (forall n | n in nodes && Backs(n.role) :: Holds(w, c, BundleOf(n), g))
    && (Wired(w0, nodes, c) ==> forall n | n in nodes && Backs(n.role) && Up(w, n.id) :: At(w, n.id).value.ca == Some(g))
  }

  lemma NewCABoots(w0: World, w: World, nodes: seq<NodeInfo>, c: string, g: nat, node: NodeInfo)
    requires Framed(w0, w, ROLES) && OnNewCA(w0, w, nodes, c, g) && UniqueIds(nodes) && node in nodes && Backs(node.role)
    requires Owned(node.id).Node?
    ensures OnNewCA(w0, Started(w, node.id), nodes, c, g)
    ensures Wired(w0, nodes, c) ==> OneCA(Started(w, node.id), nodes)
  {
    var w' := Started(w, node.id);
    assert forall path :: FileAt(w', path) == FileAt(w, path);
    forall n | n in nodes && Backs(n.role) && Up(w', n.id) && Wired(w0, nodes, c)
      ensures At(w', n.id).value.ca == Some(g)
    {
      if n.id == node.id && !Up(w, n.id) {
        assert SameRole(w0, w, n.id);
        assert Holds(w, c, BundleOf(n), g);
      }
    }
  }

  lemma NewCASame(w0: World, w: World, w': World, nodes: seq<NodeInfo>, c: string, g: nat)
    requires OnNewCA(w0, w, nodes, c, g) && SameRunning(w, w', nodes) && w'.files == w.files && w'.root == w.root
    ensures OnNewCA(w0, w', nodes, c, g)
  {
    forall n | n in nodes && Backs(n.role)
      ensures Holds(w', c, BundleOf(n), g)
    {
      assert Holds(w, c, BundleOf(n), g);
    }
  }

  /** Starting a member, or a server while every member runs, keeps the order. */
  lemma RotatingBoots(w0: World, w: World, nodes: seq<NodeInfo>, c: string, g: nat, node: NodeInfo)
    requires Rotating(w0, w, nodes, c) && OnNewCA(w0, w, nodes, c, g) && UniqueIds(nodes) && node in nodes && Backs(node.role)
    requires Owned(node.id).Node?
    requires node.role.Server? ==> forall m | m in nodes && m.role.Datastore? :: Up(w, m.id)
    ensures Rotating(w0, Started(w, node.id), nodes, c)
  {
    hide Framed;
    hide OneCA;
    hide OnNewCA;
    hide OnRecord;
    hide Wired;
    UpAfterStart(w, node.id);
    FramedSteps(w0, w, ROLES, node.id, Remount);
    SameRecord(w, Started(w, node.id), c, nodes);
    NewCABoots(w0, w, nodes, c, g, node);
  }

  // ---------------------------------------------------------------------------------------
  // The orchestration
  // ---------------------------------------------------------------------------------------

  /** The operation under way is a rotation of these nodes. */
  ghost predicate Stage(p: Provisioner, c: string, nodes: seq<NodeInfo>, w0: World)
    reads p`watch, p`scope
  {
    p.watch == RotatingFrom(w0, nodes, c) && p.scope == c && Members(nodes, c, p.domain)
  }

  ghost predicate MembersUp(w: World, nodes: seq<NodeInfo>) {
    forall m | m in nodes && m.role.Datastore? :: Up(w, m.id)
  }

  /** On the new CA, with the first i of some nodes back. */
  ghost predicate Back(w0: World, w: World, nodes: seq<NodeInfo>, c: string, g: nat, some: seq<NodeInfo>, i: nat) {
    i <= |some| && OnNewCA(w0, w, nodes, c, g) && AllServing(w, some, i)
  }

  ghost predicate SameNodes(w: World, w': World, nodes: seq<NodeInfo>) {
    w'.files == w.files && w'.root == w.root && forall n | n in nodes :: At(w', n.id) == At(w, n.id)
  }

  ghost predicate Within(some: seq<NodeInfo>, nodes: seq<NodeInfo>, role: Role) {
    forall n | n in some :: n in nodes && n.role == role
  }

  lemma BackSame(w0: World, w: World, w': World, nodes: seq<NodeInfo>, c: string, g: nat, some: seq<NodeInfo>, i: nat, role: Role)
    requires Back(w0, w, nodes, c, g, some, i) && SameNodes(w, w', nodes) && Within(some, nodes, role)
    ensures Back(w0, w', nodes, c, g, some, i)
    ensures MembersUp(w, nodes) ==> MembersUp(w', nodes)
  {
    NewCASame(w0, w, w', nodes, c, g);
    forall k: nat | k < i
      ensures Serving(w', some[k])
    {
      assert some[k] in some && Serving(w, some[k]);
    }
  }

  /** A member, or a server once all members run, may be started. */
  lemma MayBoot(p: Provisioner, c: string, nodes: seq<NodeInfo>, w0: World, g: nat, some: seq<NodeInfo>, i: nat)
    requires p.Valid() && Stage(p, c, nodes, w0) && Back(w0, p.world, nodes, c, g, some, i) && i < |some|
    requires Within(some, nodes, some[i].role) && Backs(some[i].role)
    requires some[i].role.Server? ==> MembersUp(p.world, nodes)
    ensures
      var id, w := some[i].id, Started(p.world, some[i].id);
      && Owned(id) == Node(c, some[i].role) && p.watch(w) && Steady(p.watch, id)
      && Back(w0, w, nodes, c, g, some, i) && (MembersUp(p.world, nodes) ==> MembersUp(w, nodes))
      && (At(p.world, id).Some? ==> Up(w, id))
  {
    p.Now();
    var node := some[i];
    assert node in nodes;
    NumberedOwner(node, c, p.domain);
    RotatingBoots(w0, p.world, nodes, c, g, node);
    RotatingSteady(w0, nodes, c, node.id);
    BackBoots(w0, p.world, nodes, c, g, some, i);
  }

  lemma BackBoots(w0: World, w: World, nodes: seq<NodeInfo>, c: string, g: nat, some: seq<NodeInfo>, i: nat)
    requires Framed(w0, w, ROLES) && UniqueIds(nodes) && Back(w0, w, nodes, c, g, some, i) && i < |some|
    requires some[i] in nodes && Backs(some[i].role) && Owned(some[i].id).Node?
    ensures Back(w0, Started(w, some[i].id), nodes, c, g, some, i)
    ensures MembersUp(w, nodes) ==> MembersUp(Started(w, some[i].id), nodes)
    ensures At(w, some[i].id).Some? ==> Up(Started(w, some[i].id), some[i].id)
  {
    NewCABoots(w0, w, nodes, c, g, some[i]);
    UpAfterStart(w, some[i].id);
    assert forall k: nat | k < i :: Up(w, some[k].id);
  }

  lemma BackOneMore(w0: World, w: World, nodes: seq<NodeInfo>, c: string, g: nat, some: seq<NodeInfo>, i: nat)
    requires Back(w0, w, nodes, c, g, some, i) && i < |some| && Serving(w, some[i])
    ensures Back(w0, w, nodes, c, g, some, i + 1)
  {
  }

  /** restartEtcdMembers, for one member. */
  method RestartMember(p: Provisioner, c: string, nodes: seq<NodeInfo>, members: seq<NodeInfo>, i: nat, ghost g: nat, ghost w0: World)
    returns (r: Result<Addr>)
    requires p.Valid() && Stage(p, c, nodes, w0) && Back(w0, p.world, nodes, c, g, members, i) && i < |members|
    requires Within(members, nodes, Datastore)
    modifies p`world, p`trace
    ensures p.Valid()
    ensures r.Ok? ==> Back(w0, p.world, nodes, c, g, members, i + 1)
  {
    var m := members[i];
    assert m in members;
    MayBoot(p, c, nodes, w0, g, members, i);
    var started := p.Start(m.id);
    if started.Fail? {
      return Err(started.error);
    }
    var addr :- p.InspectIPv4(m.id);
    var dialled := p.Await();
    if dialled.Fail? {
      return Err(dialled.error);
    }
    BackOneMore(w0, p.world, nodes, c, g, members, i);
    r := Ok(addr);
  }

  /** restartEtcdMembers. */
  method RestartEtcdMembers(p: Provisioner, c: string, nodes: seq<NodeInfo>, members: seq<NodeInfo>, ghost g: nat, ghost w0: World)
    returns (r: Result<seq<NodeInfo>>)
    requires p.Valid() && Stage(p, c, nodes, w0) && OnNewCA(w0, p.world, nodes, c, g)
    requires Within(members, nodes, Datastore)
    modifies p`world, p`trace
    ensures p.Valid()
    ensures r.Ok? ==> Back(w0, p.world, nodes, c, g, members, |members|) && Readdressed(nodes, r.value)
  {
    var current := nodes;
    assert Back(w0, p.world, nodes, c, g, members, 0);
    assert UniqueIds(nodes);
    assert forall m | m in members :: m in nodes;
    hide *;
    for i := 0 to |members|
      invariant p.Valid() && Back(w0, p.world, nodes, c, g, members, i) && Readdressed(nodes, current)
    {
      var addr :- RestartMember(p, c, nodes, members, i, g, w0);
      ReaddressOne(nodes, current, members[i], [addr]);
      current := ReplaceNode(current, members[i].(ips := [addr]));
    }
    r := Ok(current);
  }

  /** Worlds that differ outside the nodes only. */
  lemma MaySwap(p: Provisioner, c: string, nodes: seq<NodeInfo>, w0: World, w: World)
    requires p.Valid() && Stage(p, c, nodes, w0) && SameNodes(p.world, w, nodes) && Framed(w0, w, ROLES)
    ensures p.watch(w)
  {
    p.Now();
    SameRecord(p.world, w, c, nodes);
    RotatingSame(w0, p.world, w, nodes, c);
  }

  lemma NotANode(c: string, d: string, nodes: seq<NodeInfo>, helper: string)
    requires Members(nodes, c, d) && Owned(helper) == Helper(c)
    ensures forall n | n in nodes :: n.id != helper
  {
    forall n | n in nodes
      ensures n.id != helper
    {
      NumberedOwner(n, c, d);
    }
  }

  /** The one-shot rotation leaves every node as it is. */
  lemma MayRotate(p: Provisioner, c: string, nodes: seq<NodeInfo>, w0: World, args: seq<string>, l: Launch, content: Content, answers: bool)
    requires p.Valid() && Stage(p, c, nodes, w0) && l.names != [] && Owned(l.names[0]) == Helper(c)
    ensures p.watch(OneShot(p.world, args, l, content, answers)) && SameNodes(p.world, OneShot(p.world, args, l, content, answers), nodes)
  {
    p.Now();
    NotANode(c, p.domain, nodes, l.names[0]);
    FramedHelper(w0, p.world, ROLES, args, l, content, answers);
    MaySwap(p, c, nodes, w0, OneShot(p.world, args, l, content, answers));
  }

  lemma MayClear(p: Provisioner, c: string, nodes: seq<NodeInfo>, w0: World, helper: string)
    requires p.Valid() && Stage(p, c, nodes, w0) && Owned(helper) == Helper(c)
    ensures p.watch(Removed(p.world, helper)) && SameNodes(p.world, Removed(p.world, helper), nodes)
  {
    p.Now();
    NotANode(c, p.domain, nodes, helper);
    FramedRemoved(w0, p.world, ROLES, helper);
    MaySwap(p, c, nodes, w0, Removed(p.world, helper));
  }

  lemma MayRotateAny(p: Provisioner, c: string, nodes: seq<NodeInfo>, w0: World, args: seq<string>, l: Launch)
    requires p.Valid() && Stage(p, c, nodes, w0) && l.names != [] && Owned(l.names[0]) == Helper(c)
    ensures forall content, answers {:trigger OneShot(p.world, args, l, content, answers)} ::
              p.watch(OneShot(p.world, args, l, content, answers)) && SameNodes(p.world, OneShot(p.world, args, l, content, answers), nodes)
  {
    forall content, answers {:trigger OneShot(p.world, args, l, content, answers)}
      ensures p.watch(OneShot(p.world, args, l, content, answers)) && SameNodes(p.world, OneShot(p.world, args, l, content, answers), nodes)
    {
      MayRotate(p, c, nodes, w0, args, l, content, answers);
    }
  }

  lemma SameNodesTrans(w: World, w1: World, w2: World, nodes: seq<NodeInfo>)
    requires SameNodes(w, w1, nodes) && SameNodes(w1, w2, nodes)
    ensures SameNodes(w, w2, nodes)
  {
  }

  /** The server's data volume, if it has one, holds what a one-shot left there that k3s reads as
      reissuing the certificates on that very volume. */
  ghost predicate Reissued(w: World, c: string, image: string, network: string, s: NodeInfo) {
    var v := NodeVolumeName(c, s.name);
    Vol(w, v).Some? ==>
      match Vol(w, v).value.content
      case Left(args) => (match ReadRun(args) case Some(l) => Reissues(l, image, network, v) case None => false)
      case _ => false
  }

  ghost predicate AllReissued(w: World, c: string, image: string, network: string, servers: seq<NodeInfo>, i: nat) {
    i <= |servers| && forall k: nat | k < i :: Reissued(w, c, image, network, servers[k])
  }

  lemma NoneReissued(w: World, c: string, image: string, network: string, servers: seq<NodeInfo>)
    ensures AllReissued(w, c, image, network, servers, 0)
  {
  }

  lemma ReissuedSame(w: World, w': World, c: string, image: string, network: string, servers: seq<NodeInfo>, i: nat)
    requires AllReissued(w, c, image, network, servers, i) && w'.volumes == w.volumes
    ensures AllReissued(w', c, image, network, servers, i)
  {
    hide Reissues;
    hide ReadRun;
    forall k: nat | k < i
      ensures Reissued(w', c, image, network, servers[k])
    {
      assert Reissued(w, c, image, network, servers[k]);
    }
  }

  /** The offline rotation of one server reaches its volume only. */
  ghost predicate OnlyReissued(w: World, w': World, c: string, image: string, network: string, s: NodeInfo) {
    && (forall v :: v != NodeVolumeName(c, s.name) ==> Vol(w', v) == Vol(w, v))
    && Reissued(w', c, image, network, s)
  }

  lemma ReissuedMore(w: World, w': World, c: string, d: string, image: string, network: string, nodes: seq<NodeInfo>, servers: seq<NodeInfo>, i: nat)
    requires AllReissued(w, c, image, network, servers, i) && i < |servers| && OnlyReissued(w, w', c, image, network, servers[i])
    requires Members(nodes, c, d) && Within(servers, nodes, Server)
    ensures AllReissued(w', c, image, network, servers, i + 1)
  {
    hide Reissues;
    hide ReadRun;
    hide NodeVolumeName;
    hide Numbered;
    forall k: nat | k < i
      ensures Reissued(w', c, image, network, servers[k])
    {
      assert Reissued(w, c, image, network, servers[k]);
      if NodeVolumeName(c, servers[k].name) == NodeVolumeName(c, servers[i].name) {
        SameVolumeSameServer(nodes, servers, c, d, k, i);
      }
    }
  }

  lemma SameVolumeSameServer(nodes: seq<NodeInfo>, servers: seq<NodeInfo>, c: string, d: string, i: nat, k: nat)
    requires Members(nodes, c, d) && Within(servers, nodes, Server) && i < |servers| && k < |servers|
    requires NodeVolumeName(c, servers[i].name) == NodeVolumeName(c, servers[k].name)
    ensures servers[i].name == servers[k].name
  {
    assert servers[i] in servers && servers[k] in servers;
    NumberedOwner(servers[i], c, d);
    NumberedOwner(servers[k], c, d);
    VolumeNamesNode(c, Server, servers[i].name, servers[k].name);
  }

  lemma NowReissued(w: World, w': World, c: string, cfg: ClusterConfig, s: NodeInfo, l: Launch, answers: bool)
    requires l.names != [] && w' == OneShot(w, CertRotateArgs(cfg, s.name), l, Left(CertRotateArgs(cfg, s.name)), answers)
    requires ReadRun(CertRotateArgs(cfg, s.name)) == Some(l) && NamedVolume(l.volumes) == Some(NodeVolumeName(c, s.name))
    requires Reissues(l, cfg.image, cfg.network, NodeVolumeName(c, s.name))
    ensures OnlyReissued(w, w', c, cfg.image, cfg.network, s)
  {
    hide CertRotateArgs;
    hide NodeVolumeName;
    hide NamedVolume;
    hide Reissues;
    hide ReadRun;
  }

  lemma ReissuedBetween(w: World, w1: World, w2: World, w3: World, c: string, image: string, network: string, s: NodeInfo)
    requires w1.volumes == w.volumes && OnlyReissued(w1, w2, c, image, network, s) && w3.volumes == w2.volumes
    ensures OnlyReissued(w, w3, c, image, network, s)
  {
    hide Reissues;
    hide ReadRun;
    hide NodeVolumeName;
    assert forall v :: Vol(w1, v) == Vol(w, v) && Vol(w3, v) == Vol(w2, v);
  }

  /** Clearing a helper container, whether or not that succeeds. */
  method ClearHelper(p: Provisioner, c: string, nodes: seq<NodeInfo>, helper: string, ghost w0: World)
    requires p.Valid() && Stage(p, c, nodes, w0) && Owned(helper) == Helper(c)
    modifies p`world, p`trace
    ensures p.Valid() && SameNodes(old(p.world), p.world, nodes) && p.world.volumes == old(p.world).volumes
  {
    MayClear(p, c, nodes, w0, helper);
    var ignored := p.Remove(helper);
  }

  /** The offline part of rotateK3sServerCerts for one server. */
  method RotateOffline(p: Provisioner, c: string, cfg: ClusterConfig, nodes: seq<NodeInfo>, s: NodeInfo, ghost w0: World)
    returns (r: Outcome)
    requires p.Valid() && Stage(p, c, nodes, w0) && cfg.name == c && PlainImage(cfg.image)
    requires s in nodes && s.role.Server?
    modifies p`world, p`trace
    ensures p.Valid() && SameNodes(old(p.world), p.world, nodes)
    ensures r.Pass? ==> OnlyReissued(old(p.world), p.world, c, cfg.image, cfg.network, s)
  {
    hide Reissued;
    hide Reissues;
    hide CertRotateLaunch;
    hide ReadRun;
    hide Owned;
    hide CertRotateArgs;
    hide NamedVolume;
    hide NodeVolumeName;
    ghost var l := CertRotateLaunch(cfg, s.name);
    CertRotateReads(cfg, s, p.domain);
    ClearHelper(p, c, nodes, CertRotateHelper(s.name), w0);
    ghost var w1 := p.world;
    MayRotateAny(p, c, nodes, w0, CertRotateArgs(cfg, s.name), l);
    var rotated := p.RunOnce(CertRotateArgs(cfg, s.name), l);
    SameNodesTrans(old(p.world), w1, p.world, nodes);
    if rotated.Err? {
      return Fail(rotated.error);
    }
    ghost var w2 := p.world;
    NowReissued(w1, w2, c, cfg, s, l, rotated.value != "");
    ClearHelper(p, c, nodes, CertRotateHelper(s.name), w0);
    SameNodesTrans(old(p.world), w2, p.world, nodes);
    ReissuedBetween(old(p.world), w1, w2, p.world, c, cfg.image, cfg.network, s);
    r := Pass;
  }

  /** Bringing one server back after its offline rotation. */
  method ServerBack(p: Provisioner, c: string, nodes: seq<NodeInfo>, servers: seq<NodeInfo>, i: nat, ghost g: nat, ghost w0: World)
    returns (r: Result<Addr>)
    requires p.Valid() && Stage(p, c, nodes, w0) && Back(w0, p.world, nodes, c, g, servers, i) && i < |servers|
    requires Within(servers, nodes, Server) && MembersUp(p.world, nodes)
    modifies p`world, p`trace
    ensures p.Valid()
    ensures r.Ok? ==> Back(w0, p.world, nodes, c, g, servers, i + 1) && MembersUp(p.world, nodes)
    ensures p.world.volumes == old(p.world).volumes
  {
    var s := servers[i];
    assert s in servers;
    MayBoot(p, c, nodes, w0, g, servers, i);
    var started := p.Start(s.id);
    if started.Fail? {
      return Err(started.error);
    }
    var addr :- p.InspectIPv4(s.id);
    ghost var w := p.world;
    p.Now();
    var armed := p.EnableIPForward(s.id, p.watch);
    if armed.Fail? {
      return Err(armed.error);
    }
    BackArmed(w0, w, p.world, nodes, c, g, servers, i);
    var dialled := p.Await();
    if dialled.Fail? {
      return Err(dialled.error);
    }
    r := Ok(addr);
  }

  lemma BackArmed(w0: World, w: World, w': World, nodes: seq<NodeInfo>, c: string, g: nat, some: seq<NodeInfo>, i: nat)
    requires Back(w0, w, nodes, c, g, some, i) && i < |some| && MembersUp(w, nodes)
    requires OnlyRan(w, w', some[i].id) && Up(w', some[i].id) && Armed(w', some[i].id)
    ensures Back(w0, w', nodes, c, g, some, i + 1) && MembersUp(w', nodes)
  {
    var id := some[i].id;
    assert forall x :: x != id ==> At(w', x) == At(w, x);
    assert SameRunning(w, w', nodes);
    NewCASame(w0, w, w', nodes, c, g);
    forall k: nat | k < i + 1
      ensures Serving(w', some[k])
    {
      assert k < i ==> Serving(w, some[k]);
    }
  }

  /** rotateK3sServerCerts. */
  method RotateServerCerts(p: Provisioner, c: string, cfg: ClusterConfig, nodes: seq<NodeInfo>, servers: seq<NodeInfo>, start: seq<NodeInfo>,
                           ghost g: nat, ghost w0: World)
    returns (r: Result<seq<NodeInfo>>)
    requires p.Valid() && Stage(p, c, nodes, w0) && OnNewCA(w0, p.world, nodes, c, g) && MembersUp(p.world, nodes)
    requires Within(servers, nodes, Server) && cfg.name == c && PlainImage(cfg.image) && Readdressed(nodes, start)
    modifies p`world, p`trace
    ensures p.Valid()
    ensures r.Ok? ==> Back(w0, p.world, nodes, c, g, servers, |servers|) && MembersUp(p.world, nodes) && Readdressed(nodes, r.value)
    ensures r.Ok? ==> AllReissued(p.world, c, cfg.image, cfg.network, servers, |servers|)
  {
    hide *;
    var current := start;
    StartBack(p, c, nodes, servers, g, w0);
    NoneReissued(p.world, c, cfg.image, cfg.network, servers);
    for i := 0 to |servers|
      invariant p.Valid() && Back(w0, p.world, nodes, c, g, servers, i) && MembersUp(p.world, nodes) && Readdressed(nodes, current)
      invariant AllReissued(p.world, c, cfg.image, cfg.network, servers, i)
    {
      ghost var w := p.world;
      var offline := RotateOffline(p, c, cfg, nodes, servers[i], w0);
      if offline.Fail? {
        return Err(offline.error);
      }
      BackSame(w0, w, p.world, nodes, c, g, servers, i, Server);
      ReissuedMore(w, p.world, c, p.domain, cfg.image, cfg.network, nodes, servers, i);
      ghost var w1 := p.world;
      var addr := ServerBack(p, c, nodes, servers, i, g, w0);
      if addr.Err? {
        return Err(addr.error);
      }
      ReissuedSame(w1, p.world, c, cfg.image, cfg.network, servers, i + 1);
      ReaddressOne(nodes, current, servers[i], [addr.value]);
      current := ReplaceNode(current, servers[i].(ips := [addr.value]));
    }
    r := Ok(current);
  }

  lemma StartBack(p: Provisioner, c: string, nodes: seq<NodeInfo>, servers: seq<NodeInfo>, g: nat, w0: World)
    requires Stage(p, c, nodes, w0) && OnNewCA(w0, p.world, nodes, c, g) && Within(servers, nodes, Server)
    ensures Back(w0, p.world, nodes, c, g, servers, 0) && UniqueIds(nodes) && Members(nodes, c, p.domain)
    ensures forall k: nat | k < |servers| :: servers[k] in nodes && servers[k].role.Server?
  {
    hide OnNewCA;
    assert forall k: nat | k < |servers| :: servers[k] in servers;
  }

  function NamesOf(nodes: seq<NodeInfo>): set<string> {
    set n | n in nodes :: n.name
  }

  /** Once everything is down and the new bundles are written, nothing runs on an old CA. */
  lemma Redelivered(w0: World, w1: World, w: World, nodes: seq<NodeInfo>, c: string, g: nat)
    requires OnlyBundles(w1, w, c) && forall n | n in nodes :: !Up(w1, n.id)
    requires forall who | who in NamesOf(WithRole(nodes, Datastore)) :: Holds(w, c, who, g)
    requires Holds(w, c, CLIENT, g)
    ensures OnNewCA(w0, w, nodes, c, g)
  {
    forall n | n in nodes && Backs(n.role)
      ensures Holds(w, c, BundleOf(n), g)
    {
      if n.role.Datastore? {
        assert n in WithRole(nodes, Datastore);
        assert n.name in NamesOf(WithRole(nodes, Datastore));
      }
    }
  }

  /** All members and servers back: everything the rest of the start relies on. */
  lemma CoreBack(w0: World, w: World, nodes: seq<NodeInfo>, c: string, g: nat)
    requires Back(w0, w, nodes, c, g, WithRole(nodes, Server), |WithRole(nodes, Server)|) && MembersUp(w, nodes)
    ensures forall n | n in nodes && n.role in {Datastore, Server} :: Serving(w, n)
    ensures OnNewCA(w0, w, nodes, c, g)
  {
    forall n | n in nodes && n.role in {Datastore, Server}
      ensures Serving(w, n)
    {
      if n.role.Server? {
        assert n in WithRole(nodes, Server);
        var k: nat :| k < |WithRole(nodes, Server)| && WithRole(nodes, Server)[k] == n;
      }
    }
  }

  lemma AllMembersUp(w0: World, w: World, nodes: seq<NodeInfo>, c: string, g: nat)
    requires Back(w0, w, nodes, c, g, WithRole(nodes, Datastore), |WithRole(nodes, Datastore)|)
    ensures MembersUp(w, nodes) && OnNewCA(w0, w, nodes, c, g)
  {
    forall m | m in nodes && m.role.Datastore?
      ensures Up(w, m.id)
    {
      assert m in WithRole(nodes, Datastore);
      var k: nat :| k < |WithRole(nodes, Datastore)| && WithRole(nodes, Datastore)[k] == m;
      assert Serving(w, WithRole(nodes, Datastore)[k]);
    }
  }

  /** Every member and server trusts one generation, made at or after time t. */
  ghost predicate FreshCA(w: World, nodes: seq<NodeInfo>, t: nat) {
    OneCA(w, nodes) && forall n | n in nodes && Backs(n.role) :: Up(w, n.id) && At(w, n.id).value.ca.Some? && At(w, n.id).value.ca.value >= t
  }

  /** Members, then servers, back on the new bundles. */
  method RestartCore(p: Provisioner, c: string, nodes: seq<NodeInfo>, cfg: ClusterConfig, ghost g: nat, ghost w0: World) returns (r: Result<seq<NodeInfo>>)
    requires p.Valid() && Stage(p, c, nodes, w0) && OnNewCA(w0, p.world, nodes, c, g)
    requires cfg.name == c && PlainImage(cfg.image)
    modifies p`world, p`trace
    ensures p.Valid()
    ensures r.Ok? ==>
      && Readdressed(nodes, r.value) && OnNewCA(w0, p.world, nodes, c, g)
      && AllReissued(p.world, c, cfg.image, cfg.network, WithRole(nodes, Server), |WithRole(nodes, Server)|)
      && forall n | n in nodes && n.role in {Datastore, Server} :: Serving(p.world, n)
  {
    RestartFacts(p, c, nodes, w0);
    hide *;
    var members := NodesWithRole(nodes, Datastore);
    var servers := NodesWithRole(nodes, Server);
    var recorded :- RestartEtcdMembers(p, c, nodes, members, g, w0);
    AllMembersUp(w0, p.world, nodes, c, g);
    r := RotateServerCerts(p, c, cfg, nodes, servers, recorded, g, w0);
    if r.Ok? {
      CoreBack(w0, p.world, nodes, c, g);
    }
  }

  /** The restarts of runRotateCerts, after the bundles are replaced. */
  method RestartOnNewCA(p: Provisioner, c: string, nodes: seq<NodeInfo>, cfg: ClusterConfig, ghost g: nat, ghost w0: World) returns (r: Result<seq<NodeInfo>>)
    requires p.Valid() && Stage(p, c, nodes, w0) && OnNewCA(w0, p.world, nodes, c, g)
    requires cfg.name == c && PlainImage(cfg.image)
    modifies p`world, p`trace
    ensures p.Valid()
    ensures r.Ok? ==>
      && Readdressed(nodes, r.value) && (forall n | n in nodes :: Serving(p.world, n))
      && OnNewCA(w0, p.world, nodes, c, g)
      && AllReissued(p.world, c, cfg.image, cfg.network, WithRole(nodes, Server), |WithRole(nodes, Server)|)
  {
    hide *;
    r := RestartCore(p, c, nodes, cfg, g, w0);
    if r.Err? {
      return;
    }
    var recorded := r.value;
    ghost var w := p.world;
    RestartFacts(p, c, nodes, w0);
    r := StartRest(p, nodes, {Datastore, Server}, recorded);
    StillOnNewCA(w0, w, p.world, nodes, c, g);
    SkippedVolumes(w, p.world, nodes, {Datastore, Server});
    ReissuedSame(w, p.world, c, cfg.image, cfg.network, WithRole(nodes, Server), |WithRole(nodes, Server)|);
  }

  lemma SkippedVolumes(w: World, w': World, nodes: seq<NodeInfo>, skip: set<Role>)
    requires SkipsKept(w, w', nodes, skip)
    ensures w'.volumes == w.volumes
  {
  }

  lemma RestartFacts(p: Provisioner, c: string, nodes: seq<NodeInfo>, w0: World)
    requires Stage(p, c, nodes, w0)
    ensures Within(WithRole(nodes, Datastore), nodes, Datastore) && Within(WithRole(nodes, Server), nodes, Server)
    ensures StartLoop(p, p.world, nodes, {Datastore, Server})
  {
    RotatingStartSafe(w0, p.world, nodes, c);
  }

  lemma StillOnNewCA(w0: World, w: World, w': World, nodes: seq<NodeInfo>, c: string, g: nat)
    requires OnNewCA(w0, w, nodes, c, g) && SkipsKept(w, w', nodes, {Datastore, Server})
    ensures OnNewCA(w0, w', nodes, c, g)
  {
    forall n | n in nodes && Backs(n.role)
      ensures At(w', n.id) == At(w, n.id) && Holds(w', c, BundleOf(n), g)
    {
      assert Holds(w, c, BundleOf(n), g);
    }
  }

  lemma EveryRotationPoint(p: Provisioner, c: string, w0: World, nodes: seq<NodeInfo>)
    requires p.Valid() && p.watch == RotatingFrom(w0, nodes, c)
    ensures forall k: nat | k < |p.trace| :: Rotating(w0, p.trace[k], nodes, c)
  {
    forall k: nat | k < |p.trace|
      ensures Rotating(w0, p.trace[k], nodes, c)
    {
      p.Then(k);
    }
  }

  lemma RotatingAtFirst(w: World, nodes: seq<NodeInfo>, c: string)
    requires SavedOf(w, c).Present? && nodes == SavedOf(w, c).state.nodes
    ensures Rotating(w, w, nodes, c)
  {
    FramedSelf(w, ROLES);
  }

  lemma RotatedCoherent(c: string, st: ClusterState, w0: World, w: World, g: nat, d: string)
    requires Framed(w0, w, ROLES) && OnNewCA(w0, w, st.nodes, c, g) && Shape(st, c, d) && Wired(w0, st.nodes, c)
    ensures Coherent(w, st.nodes, c)
  {
    hide TLSDir;
    hide TLSSource;
    hide Quorum;
    hide Fronted;
    hide Distinct;
    hide Owned;
    hide Numbered;
    forall n | n in st.nodes && Backs(n.role)
      ensures SameRole(w0, w, n.id)
    {
      NumberedOwner(n, c, d);
    }
    assert OnGeneration(w, st.nodes, c, g);
  }

  /** The record a successful rotation leaves. */
  lemma Rotated(c: string, st: ClusterState, st': ClusterState, w0: World, w: World, g: nat, d: string)
    requires Framed(w0, w, ROLES) && OnNewCA(w0, w, st.nodes, c, g) && w0.clock <= g
    requires forall n | n in st.nodes :: Serving(w, n)
    requires Shape(st, c, d) && st' == st.(nodes := st'.nodes) && Readdressed(st.nodes, st'.nodes)
    ensures Faithful(w0, st, d) && Managed(st) ==> Faithful(w, st', d) && FreshCA(w, st.nodes, w0.clock)
    ensures Wired(w0, st.nodes, c) ==> Coherent(w, st.nodes, c)
  {
    if Wired(w0, st.nodes, c) {
      RotatedCoherent(c, st, w0, w, g, d);
    }
    var s := WithRole(st.nodes, Server)[0];
    assert s in st.nodes && Holds(w, c, BundleOf(s), g);
    if Faithful(w0, st, d) && Managed(st) {
      FramedFaithful(w0, w, st, st', d);
      assert forall n | n in st.nodes && Backs(n.role) :: InPlace(w0, n, st, d);
      assert Wired(w0, st.nodes, c);
    }
  }

  /** What a successful rotation leaves. */
  ghost predicate RotationDone(w0: World, w: World, c: string, d: string) {
    && SavedOf(w0, c).Present? && SavedOf(w, c).Present?
    && var st, st' := SavedOf(w0, c).state, SavedOf(w, c).state;
    && Managed(st) && SameClaims(st, st')
    && (forall n | n in st.nodes :: Serving(w, n))
    && AllReissued(w, c, ResolvedImage(st.image), st.network, WithRole(st.nodes, Server), |WithRole(st.nodes, Server)|)
    && (Faithful(w0, st, d) ==> Faithful(w, st', d) && FreshCA(w, st.nodes, w0.clock))
    && (Wired(w0, st.nodes, c) ==> Coherent(w, st.nodes, c))
  }

  lemma Prepared(p: Provisioner, c: string, st: ClusterState, w0: World)
    requires p.Valid() && Stage(p, c, st.nodes, w0) && SavedOf(p.world, c) == Present(st)
    ensures StopSafe(p.watch, st.nodes) && FilesFree(p.watch)
    ensures Shape(st, c, p.domain) && PlainImage(ResolvedImage(st.image)) && st.clusterName == c
  {
    p.Now();
    RotatingStopSafe(w0, st.nodes, c);
    RotatingFilesFree(w0, st.nodes, c);
    ResolvedRuns(st.image);
  }

  lemma MaySave(p: Provisioner, c: string, st: ClusterState, st': ClusterState, w0: World)
    requires p.Valid() && Stage(p, c, st.nodes, w0)
    requires Shape(st, c, p.domain) && st' == st.(nodes := st'.nodes) && Readdressed(st.nodes, st'.nodes)
    ensures Shape(st', c, p.domain)
    ensures
      var path := StatePath(p.world.root, c);
      p.watch(Written(p.world, path, Record(st'))) && p.watch(Written(p.world, path, Junk))
    ensures Framed(w0, p.world, ROLES)
  {
    p.Now();
    ShapeReaddressed(st, st', c, p.domain);
    RotatingWritten(w0, p.world, st.nodes, c, StatePath(p.world.root, c), Record(st'));
    RotatingWritten(w0, p.world, st.nodes, c, StatePath(p.world.root, c), Junk);
  }

  lemma SavedOnNewCA(w0: World, w: World, nodes: seq<NodeInfo>, c: string, g: nat, file: File)
    requires OnNewCA(w0, w, nodes, c, g)
    ensures
      var w' := Written(w, StatePath(w.root, c), file);
      OnNewCA(w0, w', nodes, c, g) && forall n | n in nodes :: Serving(w, n) ==> Serving(w', n)
  {
    var w' := Written(w, StatePath(w.root, c), file);
    assert forall x :: At(w', x) == At(w, x);
    assert forall x :: FileAt(w', x) == if x == StatePath(w.root, c) then Some(file) else FileAt(w, x);
    forall n | n in nodes && Backs(n.role)
      ensures Holds(w', c, BundleOf(n), g)
    {
      BundleApart(w.root, c, BundleOf(n));
      assert Holds(w, c, BundleOf(n), g);
    }
  }

  lemma SavedRotation(w0: World, w: World, st: ClusterState, st': ClusterState, c: string, g: nat, d: string)
    requires SavedOf(w0, c) == Present(st) && Managed(st) && w0.clock <= g
    requires Framed(w0, w, ROLES) && OnNewCA(w0, w, st.nodes, c, g)
    requires forall n | n in st.nodes :: Serving(w, n)
    requires Shape(st, c, d) && st' == st.(nodes := st'.nodes) && Readdressed(st.nodes, st'.nodes)
    requires AllReissued(w, c, ResolvedImage(st.image), st.network, WithRole(st.nodes, Server), |WithRole(st.nodes, Server)|)
    ensures RotationDone(w0, Written(w, StatePath(w.root, c), Record(st')), c, d)
  {
    hide OnNewCA;
    hide FreshCA;
    hide Coherent;
    hide Wired;
    hide AllReissued;
    hide Framed;
    hide Faithful;
    hide ConfigFromState;
    hide ClientDir;
    hide Fronted;
    hide Quorum;
    ReissuedSame(w, Written(w, StatePath(w.root, c), Record(st')), c, ResolvedImage(st.image), st.network, WithRole(st.nodes, Server), |WithRole(st.nodes, Server)|);
    var path := StatePath(w.root, c);
    var w' := Written(w, path, Record(st'));
    FramedWritten(w0, w, ROLES, path, Record(st'));
    SavedOnNewCA(w0, w, st.nodes, c, g, Record(st'));
    Rotated(c, st, st', w0, w', g, d);
  }

  lemma RotationStarts(w: World, c: string, d: string)
    requires Lawful(w, c, d)
    ensures Anything()(w)
    ensures SavedOf(w, c).Present? ==>
              RotatingFrom(w, SavedOf(w, c).state.nodes, c)(w) && Members(SavedOf(w, c).state.nodes, c, d)
  {
    hide Closed;
    hide OneCA;
    hide Wired;
    if SavedOf(w, c).Present? {
      RotatingAtFirst(w, SavedOf(w, c).state.nodes, c);
      ShapeUnique(SavedOf(w, c).state, c, d);
    }
  }

  lemma Staged(p: Provisioner, c: string, nodes: seq<NodeInfo>, w0: World)
    requires p.watch == RotatingFrom(w0, nodes, c) && p.scope == c && Members(nodes, c, p.domain)
    ensures Stage(p, c, nodes, w0)
  {
  }

  /** RotateCerts. */
  method RotateCerts(p: Provisioner, c: string, force: bool) returns (r: Outcome)
    requires Tidy(p.world) && Lawful(p.world, c, p.domain)
    modifies p
    ensures p.Valid() && p.scope == c && p.origin == old(p.world)
    ensures SavedOf(old(p.world), c).Present? ==>
              forall k: nat | k < |p.trace| :: Rotating(old(p.world), p.trace[k], SavedOf(old(p.world), c).state.nodes, c)
    ensures !SavedOf(old(p.world), c).Present? ==> p.trace == [old(p.world)]
    ensures !force ==> r.Fail? && p.world == old(p.world)
    ensures r.Pass? ==> RotationDone(old(p.world), p.world, c, p.domain)
  {
    hide *;
    ghost var w0 := p.world;
    RotationStarts(w0, c, p.domain);
    p.Begin(c, Anything());
    var loaded := p.LoadState(c);
    if SavedOf(w0, c).Present? {
      var nodes := SavedOf(w0, c).state.nodes;
      p.Begin(c, RotatingFrom(w0, nodes, c));
      Staged(p, c, nodes, w0);
      EveryRotationPoint(p, c, w0, nodes);
    }
    if loaded.Err? {
      return Fail(loaded.error);
    }
    var st := loaded.value;
    var members := NodesWithRole(st.nodes, Datastore);
    if members == [] {
      return Fail(NoManagedDatastore);
    }
    if !force {
      return Fail(NotForced);
    }
    r := RunRotateCerts(p, c, st, members, w0);
    EveryRotationPoint(p, c, w0, st.nodes);
  }

  /** runRotateCerts. */
  method RunRotateCerts(p: Provisioner, c: string, st: ClusterState, members: seq<NodeInfo>, ghost w0: World) returns (r: Outcome)
    requires p.Valid() && Stage(p, c, st.nodes, w0) && p.world == w0
    requires SavedOf(w0, c) == Present(st) && members == WithRole(st.nodes, Datastore) != []
    modifies p`world, p`trace
    ensures p.Valid()
    ensures r.Pass? ==> RotationDone(w0, p.world, c, p.domain)
  {
    var cfg := ConfigFromState(st, ClientDir(p.world, c));
    Prepared(p, c, st, w0);
    hide *;
    :- StopAll(p, st.nodes);
    ghost var w1 := p.world;
    var delivered := DeliverTLS(p, c, set m | m in members :: m.name);
    if delivered.Err? {
      return Fail(delivered.error);
    }
    ghost var g := delivered.value;
    Redelivered(w0, w1, p.world, st.nodes, c, g);
    r := FinishRotation(p, c, st, cfg, g, w0);
  }

  /** What the operation goes by is the record. */
  lemma StateConfig(p: Provisioner, st: ClusterState, c: string, w0: World)
    requires Stage(p, c, st.nodes, w0) && Shape(st, c, p.domain)
    ensures p.scope == c
    ensures
      var cfg := ConfigFromState(st, ClientDir(w0, c));
      st.clusterName == c && cfg.image == ResolvedImage(st.image) && cfg.network == st.network
  {
  }

  /** The restarts and the new record. */
  method FinishRotation(p: Provisioner, c: string, st: ClusterState, cfg: ClusterConfig, ghost g: nat, ghost w0: World) returns (r: Outcome)
    requires p.Valid() && Stage(p, c, st.nodes, w0) && OnNewCA(w0, p.world, st.nodes, c, g) && w0.clock <= g
    requires SavedOf(w0, c) == Present(st) && Managed(st) && Shape(st, c, p.domain)
    requires cfg.name == c && PlainImage(cfg.image) && cfg == ConfigFromState(st, ClientDir(w0, c))
    modifies p`world, p`trace
    ensures p.Valid()
    ensures r.Pass? ==> RotationDone(w0, p.world, c, p.domain)
  {
    hide *;
    StateConfig(p, st, c, w0);
    var restarted := RestartOnNewCA(p, c, st.nodes, cfg, g, w0);
    if restarted.Err? {
      return Fail(restarted.error);
    }
    var st' := st.(nodes := restarted.value);
    ghost var w := p.world;
    MaySave(p, c, st, st', w0);
    r := p.SaveState(st');
    if r.Pass? {
      SavedRotation(w0, w, st, st', c, g, p.domain);
    }
  }

  // ---------------------------------------------------------------------------------------
  // Starts after a rotation
  // ---------------------------------------------------------------------------------------

  /** The CA generation a member or server will run on once it is started: the one it runs on, or
      the one its bundle holds. */
  function NextCA(w: World, n: NodeInfo, c: string): Option<nat> {
    if Up(w, n.id) then At(w, n.id).value.ca
    else match FileAt(w, TLSDir(w.root, c, BundleOf(n)))
      case Some(Keys(g)) => Some(g)
      case _ => None
  }

  /** Members and servers agree on the CA they will run on. */
  ghost predicate NextCAsAgree(w: World, nodes: seq<NodeInfo>, c: string) {
    forall a, b | a in nodes && b in nodes && Backs(a.role) && Backs(b.role) :: NextCA(w, a, c) == NextCA(w, b, c)
  }

  lemma RisenOnNextCA(w0: World, w: World, nodes: seq<NodeInfo>, c: string, n: NodeInfo)
    requires Risen(w0, w) && Wired(w0, nodes, c) && n in nodes && Backs(n.role) && Up(w, n.id)
    ensures At(w, n.id).value.ca == NextCA(w0, n, c)
  {
    hide TLSDir;
    hide TLSSource;
  }

  /** At every point of a start all members and servers that run are on one CA if they agree on the
      one they will run on; a start that succeeds leaves them on one CA only if they do. */
  lemma StartsOnOneCA(w0: World, w: World, nodes: seq<NodeInfo>, c: string)
    requires Starting(w0, w, nodes) && Wired(w0, nodes, c)
    ensures NextCAsAgree(w0, nodes, c) ==> OneCA(w, nodes)
    ensures (forall n | n in nodes :: Up(w, n.id)) ==> (OneCA(w, nodes) <==> NextCAsAgree(w0, nodes, c))
  {
    hide NextCA;
    hide InOrder;
    hide Risen;
    hide Wired;
    forall n | n in nodes && Backs(n.role) && Up(w, n.id)
      ensures At(w, n.id).value.ca == NextCA(w0, n, c)
    {
      RisenOnNextCA(w0, w, nodes, c, n);
    }
  }

  /** They agree when all bundles hold one generation and what runs is on it. */
  lemma CoherentAgrees(w: World, nodes: seq<NodeInfo>, c: string)
    requires Coherent(w, nodes, c)
    ensures NextCAsAgree(w, nodes, c) && OneCA(w, nodes)
  {
    var g: nat :| OnGeneration(w, nodes, c, g);
    forall n | n in nodes && Backs(n.role)
      ensures NextCA(w, n, c) == Some(g)
    {
      assert Holds(w, c, BundleOf(n), g);
    }
  }

  /** Starts and stops keep it so at every point. */
  lemma CoherentKept(w0: World, w: World, nodes: seq<NodeInfo>, c: string)
    requires Coherent(w0, nodes, c) && (Starting(w0, w, nodes) || Stopping(w0, w, nodes)) && w.root == w0.root
    ensures Coherent(w, nodes, c)
  {
    hide TLSDir;
    hide TLSSource;
    hide Closed;
    var g: nat :| OnGeneration(w0, nodes, c, g);
    forall n | n in nodes && Backs(n.role)
      ensures Holds(w, c, BundleOf(n), g) && (Up(w, n.id) ==> At(w, n.id).value.ca == Some(g))
      ensures At(w, n.id).Some? && At(w, n.id).value.launch == At(w0, n.id).value.launch
    {
      assert Recipe(At(w, n.id)) == Recipe(At(w0, n.id));
      assert Holds(w0, c, BundleOf(n), g);
    }
    assert OnGeneration(w, nodes, c, g);
  }

  lemma BundlesApart(root: string, c: string, a: string, b: string)
    requires a != b
    ensures TLSDir(root, c, a) != TLSDir(root, c, b)
  {
    var front := ClusterDir(root, c) + "/" + "etcd-tls" + "/";
    assert TLSDir(root, c, a) == front + a && TLSDir(root, c, b) == front + b;
    assert (front + a)[|front|..] == a && (front + b)[|front|..] == b;
  }

  /** A rotation of a stopped cluster that ends after one member's bundle was written, which is a
      point of it like any other: whatever start succeeds next leaves two CAs at work. */
  lemma AbortedRotation(w0: World, st: ClusterState, c: string, d: string, g: nat, i: nat, w: World)
    requires Tidy(w0) && Lawful(w0, c, d) && SavedOf(w0, c) == Present(st) && Managed(st) && Wired(w0, st.nodes, c)
    requires forall n | n in st.nodes :: !Up(w0, n.id)
    requires forall n | n in st.nodes && Backs(n.role) :: Holds(w0, c, BundleOf(n), g)
    requires i < |WithRole(st.nodes, Datastore)|
    ensures
      var w1 := Written(w0, TLSDir(w0.root, c, WithRole(st.nodes, Datastore)[i].name), Keys(w0.clock));
      && Rotating(w0, w1, st.nodes, c) && Kept(c, d, w0, w1)
      && (Starting(w1, w, st.nodes) && (forall n | n in st.nodes :: Serving(w, n)) ==> !OneCA(w, st.nodes))
  {
    hide *;
    var members := WithRole(st.nodes, Datastore);
    var dir := TLSDir(w0.root, c, members[i].name);
    var w1 := Written(w0, dir, Keys(w0.clock));
    RotationPoint(w0, st, c, d, members[i].name);
    var j := if i == 0 then 1 else 0;
    TwoMembers(st, c, d, i, j);
    BundlesApart(w0.root, c, members[i].name, members[j].name);
    OldBundle(w0, st, c, g, members[j]);
    OnOldAndNew(w0, st, c, g, members[i], members[j]);
    if Starting(w1, w, st.nodes) && forall n | n in st.nodes :: Serving(w, n) {
      StillWired(w0, st.nodes, c, dir, Keys(w0.clock));
      AllUp(w, st.nodes);
      StartsOnOneCA(w1, w, st.nodes, c);
    }
  }

  lemma AllUp(w: World, nodes: seq<NodeInfo>)
    requires forall n | n in nodes :: Serving(w, n)
    ensures forall n | n in nodes :: Up(w, n.id)
  {
  }

  lemma OldBundle(w0: World, st: ClusterState, c: string, g: nat, m: NodeInfo)
    requires Tidy(w0) && m in st.nodes && m.role.Datastore?
    requires forall n | n in st.nodes && Backs(n.role) :: Holds(w0, c, BundleOf(n), g)
    ensures Holds(w0, c, m.name, g) && g < w0.clock
  {
    assert Holds(w0, c, BundleOf(m), g);
  }

  lemma RotationPoint(w0: World, st: ClusterState, c: string, d: string, member: string)
    requires Tidy(w0) && Lawful(w0, c, d) && SavedOf(w0, c) == Present(st)
    ensures Shape(st, c, d)
    ensures
      var w1 := Written(w0, TLSDir(w0.root, c, member), Keys(w0.clock));
      Rotating(w0, w1, st.nodes, c) && Kept(c, d, w0, w1)
  {
    hide Shape;
    hide Marked;
    hide TLSDir;
    BundleApart(w0.root, c, member);
    RotatingAtFirst(w0, st.nodes, c);
    RotatingWritten(w0, w0, st.nodes, c, TLSDir(w0.root, c, member), Keys(w0.clock));
    WrittenKept(c, d, w0, TLSDir(w0.root, c, member), Keys(w0.clock));
  }

  lemma TwoMembers(st: ClusterState, c: string, d: string, i: nat, j: nat)
    requires Shape(st, c, d) && Managed(st) && i < |WithRole(st.nodes, Datastore)| && j < 2 && i != j
    ensures
      var members := WithRole(st.nodes, Datastore);
      && j < |members| && members[i] in st.nodes && members[j] in st.nodes
      && members[i].role.Datastore? && members[j].role.Datastore? && members[i].name != members[j].name
  {
    hide Fronted;
    hide AllNumbered;
    hide Distinct;
    var members := WithRole(st.nodes, Datastore);
    assert members[i] in members && members[j] in members;
    if members[i].name == members[j].name {
      NodeNameInjective(c, Datastore, i + 1, c, Datastore, j + 1);
    }
  }

  lemma OnOldAndNew(w0: World, st: ClusterState, c: string, g: nat, a: NodeInfo, b: NodeInfo)
    requires a in st.nodes && b in st.nodes && a.role.Datastore? && b.role.Datastore?
    requires !Up(w0, a.id) && !Up(w0, b.id) && Holds(w0, c, b.name, g) && g < w0.clock
    requires TLSDir(w0.root, c, a.name) != TLSDir(w0.root, c, b.name)
    ensures !NextCAsAgree(Written(w0, TLSDir(w0.root, c, a.name), Keys(w0.clock)), st.nodes, c)
  {
    hide TLSDir;
    var w1 := Written(w0, TLSDir(w0.root, c, a.name), Keys(w0.clock));
    assert At(w1, a.id) == At(w0, a.id) && At(w1, b.id) == At(w0, b.id);
    assert NextCA(w1, a, c) == Some(w0.clock) && NextCA(w1, b, c) == Some(g);
  }

  lemma StillWired(w0: World, nodes: seq<NodeInfo>, c: string, path: string, file: File)
    requires Wired(w0, nodes, c)
    ensures Wired(Written(w0, path, file), nodes, c)
  {
    hide TLSDir;
    assert forall x :: At(Written(w0, path, file), x) == At(w0, x);
  }
}
