/** Token rotation (provider/apple/rotate.go): every k3s node is recreated with a new token. */
module Token {
  import opened Types
  import opened Names
  import opened Ordering
  import opened Recipes
  import opened Meaning
  import opened Records
  import opened World
  import opened Runtime
  import opened Fidelity
  import opened Frames
  import opened Lifecycle
  import opened EtcdTLS
  import opened Day2
  import opened Rolling

  /** The recreation of a recorded cluster's nodes with a new token. */
  function Rekey(w: World, st: ClusterState, d: string, token: string): Roll {
    Roll(st.clusterName, d, ConfigFromState(st, ClientDir(w, st.clusterName)).(token := token), st.serverURL, st.nodes, st.token)
  }

  ghost predicate AllRecreated(w0: World, w: World, roll: Roll) {
    forall n | n in OrderOf(roll) :: Recreated(w0, w, n.id, LaunchOf(roll, n))
  }

  /** The first server was told to reseal the bootstrap data, from the token held so far to the new
      one. */
  ghost predicate Sealed(w: World, roll: Roll) {
    Resealed(w, roll.nodes, roll.held, roll.cfg.token)
  }

  ghost predicate Resealed(w: World, nodes: seq<NodeInfo>, held: string, token: string) {
    var servers := WithRole(nodes, Server);
    servers != [] && servers[0].id in w.retold && Reseals(w.retold[servers[0].id], held, token)
  }

  ghost predicate NoneReplaced(w0: World, w: World, roll: Roll) {
    forall n | n in OrderOf(roll) :: SameRole(w0, w, n.id)
  }

  /** What token rotation keeps at every point: volumes, datastore and load balancer are never
      touched, each k3s node is on the volume it had, none of them is replaced before the
      bootstrap data is sealed under the new token, and the record changes only once every
      node was recreated with it. */
  ghost predicate Rekeying(w0: World, w: World, roll: Roll) {
    && (NoneReplaced(w0, w, roll) || Sealed(w, roll))
    && w.volumes == w0.volumes && w.root == w0.root
    && (forall n | n in roll.nodes && !n.role.IsK3s() :: At(w, n.id) == At(w0, n.id))
    && (forall n | n in OrderOf(roll) :: MountKept(w0, w, roll, n))
    && (w.files == w0.files || AllRecreated(w0, w, roll))
  }

  ghost function RekeyingFrom(w0: World, roll: Roll): World -> bool {
    w => Rekeying(w0, w, roll)
  }

  ghost predicate RekeyedTo(w0: World, w: World, roll: Roll, k: nat) {
    && k <= |OrderOf(roll)| && Sealed(w, roll)
    && w.volumes == w0.volumes && w.root == w0.root && w.files == w0.files
    && (forall n | n in roll.nodes && !n.role.IsK3s() :: At(w, n.id) == At(w0, n.id))
    && (forall n | n in OrderOf(roll) :: MountKept(w0, w, roll, n))
    && (forall j: nat | j < k :: Recreated(w0, w, OrderOf(roll)[j].id, LaunchOf(roll, OrderOf(roll)[j])))
  }

  ghost function RekeyedAt(w0: World, roll: Roll, k: nat): World -> bool {
    w => RekeyedTo(w0, w, roll, k)
  }

  /** Touching only a node that is not done yet. */
  lemma RekeyStep(w0: World, w: World, w': World, roll: Roll, k: nat, i: nat)
    requires Rollable(roll, roll.domain) && RekeyedTo(w0, w, roll, k) && k <= i < |OrderOf(roll)|
    requires OnlyContainer(w, w', OrderOf(roll)[i].id) && MountKept(w0, w', roll, OrderOf(roll)[i])
    ensures RekeyedTo(w0, w', roll, k)
  {
    OrderMember(roll, roll.domain, i);
    forall j: nat | j < |OrderOf(roll)| && j != i
      ensures At(w', OrderOf(roll)[j].id) == At(w, OrderOf(roll)[j].id)
    {
      OrderApart(roll, roll.domain, j, i);
    }
    forall j: nat | j < |OrderOf(roll)|
      ensures MountKept(w0, w', roll, OrderOf(roll)[j])
      ensures j < k ==> Recreated(w0, w', OrderOf(roll)[j].id, LaunchOf(roll, OrderOf(roll)[j]))
    {
      if j != i {
        KeptBeside(w0, w, w', roll, OrderOf(roll)[j]);
      }
    }
    forall n | n in OrderOf(roll)
      ensures MountKept(w0, w', roll, n)
    {
      var j: nat :| j < |OrderOf(roll)| && OrderOf(roll)[j] == n;
    }
  }

  lemma KeptBeside(w0: World, w: World, w': World, roll: Roll, n: NodeInfo)
    requires At(w', n.id) == At(w, n.id) && w'.volumes == w.volumes && n in OrderOf(roll)
    ensures MountKept(w0, w, roll, n) ==> MountKept(w0, w', roll, n)
    ensures Recreated(w0, w, n.id, LaunchOf(roll, n)) ==> Recreated(w0, w', n.id, LaunchOf(roll, n))
  {
    assert forall v :: Vol(w', v) == Vol(w, v);
  }

  lemma RekeyRuns(w0: World, w: World, roll: Roll, k: nat, cmd: GuestCommand)
    requires Rollable(roll, roll.domain) && RekeyedTo(w0, w, roll, k) && k < |OrderOf(roll)|
    ensures
      var id := OrderOf(roll)[k].id;
      && RekeyedTo(w0, Ran(w, id, cmd), roll, k) && RekeyedTo(w0, Stopped(w, id), roll, k) && RekeyedTo(w0, Removed(w, id), roll, k)
  {
    var n := OrderOf(roll)[k];
    OnlyContainerSteps(w, n.id, cmd);
    SameRoleRuns(w, n.id, cmd);
    assert n in OrderOf(roll) && MountKept(w0, w, roll, n);
    MountKeptSame(w0, w, Ran(w, n.id, cmd), roll, n);
    MountKeptSame(w0, w, Stopped(w, n.id), roll, n);
    MountKeptSame(w0, w, Removed(w, n.id), roll, n);
    RekeyStep(w0, w, Ran(w, n.id, cmd), roll, k, k);
    RekeyStep(w0, w, Stopped(w, n.id), roll, k, k);
    RekeyStep(w0, w, Removed(w, n.id), roll, k, k);
  }

  lemma RekeyPlaces(w0: World, w: World, roll: Roll, k: nat, boots: bool)
    requires Rollable(roll, roll.domain) && RekeyedTo(w0, w, roll, k) && k < |OrderOf(roll)|
    ensures RekeyedTo(w0, Placed(w, LaunchOf(roll, OrderOf(roll)[k]), boots), roll, k)
  {
    var n := OrderOf(roll)[k];
    OrderMember(roll, roll.domain, k);
    OnlyContainerPlaced(w, LaunchOf(roll, n), boots, n.id);
    MountKeptPlaced(w0, w, roll, n, boots);
    RekeyStep(w0, w, Placed(w, LaunchOf(roll, n), boots), roll, k, k);
  }

  lemma RekeyImplies(w0: World, roll: Roll, k: nat)
    ensures Implies(RekeyedAt(w0, roll, k), RekeyingFrom(w0, roll))
  {
  }

  lemma MayRekey(w0: World, roll: Roll, k: nat)
    requires Rollable(roll, roll.domain) && k < |OrderOf(roll)|
    ensures
      var n := OrderOf(roll)[k];
      MayRecreate(RekeyedAt(w0, roll, k), n.id, LaunchOf(roll, n)) && Implies(RekeyedAt(w0, roll, k), RekeyingFrom(w0, roll))
  {
    hide RekeyedTo;
    hide Rollable;
    hide OrderOf;
    hide LaunchOf;
    hide Owned;
    hide Numbered;
    hide Launchable;
    hide Placed;
    hide NodeFQDN;
    var q, n := RekeyedAt(w0, roll, k), OrderOf(roll)[k];
    OrderMember(roll, roll.domain, k);
    RekeyImplies(w0, roll, k);
    forall w, cmd {:trigger Ran(w, n.id, cmd)} | q(w)
      ensures q(Ran(w, n.id, cmd))
    {
      RekeyRuns(w0, w, roll, k, cmd);
    }
    forall w {:trigger Stopped(w, n.id)} | q(w)
      ensures q(Stopped(w, n.id))
    {
      RekeyRuns(w0, w, roll, k, Remount);
    }
    forall w {:trigger Removed(w, n.id)} | q(w)
      ensures q(Removed(w, n.id))
    {
      RekeyRuns(w0, w, roll, k, Remount);
    }
    forall w, boots {:trigger Placed(w, LaunchOf(roll, n), boots)} | q(w)
      ensures q(Placed(w, LaunchOf(roll, n), boots))
    {
      RekeyPlaces(w0, w, roll, k, boots);
    }
  }

  ghost predicate Stage(p: Provisioner, roll: Roll, w0: World)
    reads p`watch, p`scope
  {
    p.watch == RekeyingFrom(w0, roll) && p.scope == roll.c && Rollable(roll, p.domain)
  }

  /** One recreation of runRotateToken. */
  method RekeyKth(p: Provisioner, roll: Roll, k: nat, recorded: seq<NodeInfo>, ghost w0: World) returns (r: Result<seq<NodeInfo>>)
    requires p.Valid() && Stage(p, roll, w0) && RekeyedTo(w0, p.world, roll, k) && k < |OrderOf(roll)|
    requires Readdressed(roll.nodes, recorded)
    modifies p`world, p`trace
    ensures p.Valid() && RekeyedTo(w0, p.world, roll, k)
    ensures r.Ok? ==> RekeyedTo(w0, p.world, roll, k + 1) && Readdressed(roll.nodes, r.value)
  {
    var n := OrderOf(roll)[k];
    OrderMember(roll, p.domain, k);
    MayRekey(w0, roll, k);
    ghost var w := p.world;
    var info := RecreateNode(p, roll.c, roll.cfg, NodeConfigFromInfo(n), URLOf(roll, n), RekeyedAt(w0, roll, k));
    RecreatedSince(w0, w, p.world, n.id, LaunchOf(roll, n));
    if info.Err? {
      return Err(info.error);
    }
    Rerecord(roll, p.domain, n, recorded, info.value);
    r := Ok(ReplaceNode(recorded, info.value));
  }

  /** What a recreation reports of a recorded node is that node at a new address. */
  lemma Rerecord(roll: Roll, d: string, n: NodeInfo, recorded: seq<NodeInfo>, info: NodeInfo)
    requires Rollable(roll, d) && n in roll.nodes && n.role.IsK3s() && Readdressed(roll.nodes, recorded)
    requires Bare(info) == Bare(InfoOf(NodeConfigFromInfo(n), d, ""))
    ensures Readdressed(roll.nodes, ReplaceNode(recorded, info))
  {
    assert Numbered(n, roll.c, d);
    SameNode(n, info);
    ReaddressOne(roll.nodes, recorded, n, info.ips);
  }

  method RekeyAll(p: Provisioner, roll: Roll, ghost w0: World) returns (r: Result<seq<NodeInfo>>)
    requires p.Valid() && Stage(p, roll, w0) && RekeyedTo(w0, p.world, roll, 0)
    modifies p`world, p`trace
    ensures p.Valid()
    ensures r.Ok? ==> RekeyedTo(w0, p.world, roll, |OrderOf(roll)|) && Readdressed(roll.nodes, r.value)
  {
    var order := UpgradeOrder(roll.nodes);
    r := Ok(roll.nodes);
    assert order == OrderOf(roll) && Readdressed(roll.nodes, roll.nodes);
    hide *;
    for k := 0 to |order|
      invariant p.Valid() && RekeyedTo(w0, p.world, roll, k)
      invariant r.Ok? && Readdressed(roll.nodes, r.value)
    {
      r := RekeyKth(p, roll, k, r.value, w0);
      if r.Err? {
        return;
      }
    }
  }

  /** What a successful rotation leaves. */
  ghost predicate Rekeyed(w0: World, w: World, st: ClusterState, st': ClusterState, d: string) {
    var done :=
      && SavedOf(w, st.clusterName) == Present(st')
      && st' == st.(token := st'.token, nodes := st'.nodes) && Readdressed(st.nodes, st'.nodes)
      && AllRecreated(w0, w, Rekey(w0, st, d, st'.token)) && Resealed(w, st.nodes, st.token, st'.token)
      && (forall n | n in st.nodes && n.role.IsK3s() :: RanAgain(w, st.(token := st'.token), n, ClientDir(w0, st.clusterName), d))
      && (Faithful(w0, st, d) ==> Faithful(w, st', d));
    done
  }

  lemma AllOfThem(w0: World, w: World, roll: Roll)
    requires RekeyedTo(w0, w, roll, |OrderOf(roll)|)
    ensures AllRecreated(w0, w, roll)
    ensures w.volumes == w0.volumes && w.root == w0.root && w.files == w0.files
    ensures forall n | n in roll.nodes && !n.role.IsK3s() :: At(w, n.id) == At(w0, n.id)
  {
    forall n | n in OrderOf(roll)
      ensures Recreated(w0, w, n.id, LaunchOf(roll, n))
    {
      var j: nat :| j < |OrderOf(roll)| && OrderOf(roll)[j] == n;
    }
  }

  lemma RekeyedWritten(w0: World, w: World, roll: Roll, path: string, file: File)
    requires RekeyedTo(w0, w, roll, |OrderOf(roll)|)
    ensures Rekeying(w0, Written(w, path, file), roll) && AllRecreated(w0, Written(w, path, file), roll) && Sealed(Written(w, path, file), roll)
  {
    hide Reseals;
    hide LaunchOf;
    var w' := Written(w, path, file);
    AllOfThem(w0, w, roll);
    assert forall x :: At(w', x) == At(w, x);
    assert forall v :: Vol(w', v) == Vol(w, v);
    forall n | n in OrderOf(roll)
      ensures MountKept(w0, w', roll, n) && Recreated(w0, w', n.id, LaunchOf(roll, n))
    {
      assert MountKept(w0, w, roll, n) && Recreated(w0, w, n.id, LaunchOf(roll, n));
    }
  }

  lemma SavedRekey(w0: World, w: World, w': World, st: ClusterState, st': ClusterState, c: string, d: string)
    requires Shape(st, c, d) && HostPath(w0.root)
    requires st' == st.(token := st'.token, nodes := st'.nodes) && Readdressed(st.nodes, st'.nodes)
    requires var roll := Rekey(w0, st, d, st'.token); RekeyedTo(w0, w, roll, |OrderOf(roll)|) && Rollable(roll, d)
    requires w' == Written(w, StatePath(w.root, c), Record(st'))
    ensures Rekeyed(w0, w', st, st', d)
  {
    hide Shape;
    hide Faithful;
    hide OrderOf;
    hide HostPath;
    hide Resealed;
    hide RekeyedTo;
    hide RanAgain;
    hide LaunchOf;
    var roll := Rekey(w0, st, d, st'.token);
    RekeyedWritten(w0, w, roll, StatePath(w.root, c), Record(st'));
    ShapeNamed(st, c, d);
    AllOfThem(w0, w, roll);
    RekeyedAgain(w0, w', st, st', c, d);
    if Faithful(w0, st, d) {
      NewToken(w0, st, st', c, d);
      RecreatedFaithful(w0, w, roll, st, st', c, d);
      FaithfulSaved(w, st', c, d, Record(st'));
    }
  }

  lemma RekeyedAgain(w0: World, w: World, st: ClusterState, st': ClusterState, c: string, d: string)
    requires AllRecreated(w0, w, Rekey(w0, st, d, st'.token)) && Shape(st, c, d)
    ensures forall n | n in st.nodes && n.role.IsK3s() :: RanAgain(w, st.(token := st'.token), n, ClientDir(w0, st.clusterName), d)
  {
    hide LaunchOf;
    hide ClientDir;
    hide AllNumbered;
    hide Quorum;
    hide Fronted;
    var roll := Rekey(w0, st, d, st'.token);
    ResolvedRuns(st.image);
    forall n | n in st.nodes && n.role.IsK3s()
      ensures RanAgain(w, st.(token := st'.token), n, ClientDir(w0, st.clusterName), d)
    {
      assert n in OrderOf(roll);
      LaunchedAgain(w, roll, st.(token := st'.token), n, ClientDir(w0, st.clusterName), d);
    }
  }

  lemma NewToken(w0: World, st: ClusterState, st': ClusterState, c: string, d: string)
    requires Shape(st, c, d) && st' == st.(token := st'.token, nodes := st'.nodes)
    ensures Pins(w0, Rekey(w0, st, d, st'.token), st, st', d)
  {
    hide AllNumbered;
    hide Distinct;
    hide Quorum;
    hide Fronted;
    ResolvedRuns(st.image);
  }

  lemma RekeyFits(w: World, st: ClusterState, c: string, d: string, token: string)
    requires Shape(st, c, d)
    ensures Rollable(Rekey(w, st, d, token), d)
  {
    ShapeUnique(st, c, d);
    ResolvedRuns(st.image);
  }

  lemma RekeyStarts(w: World, roll: Roll)
    ensures RekeyingFrom(w, roll)(w)
  {
  }

  lemma EveryRekeyPoint(p: Provisioner, w0: World, roll: Roll)
    requires p.Valid() && p.watch == RekeyingFrom(w0, roll)
    ensures forall k: nat | k < |p.trace| :: Rekeying(w0, p.trace[k], roll)
  {
    forall k: nat | k < |p.trace|
      ensures Rekeying(w0, p.trace[k], roll)
    {
      p.Then(k);
    }
  }

  /** Telling the first server keeps what rotation keeps, and opens the recreations. */
  lemma MayTell(w: World, roll: Roll)
    requires WithRole(roll.nodes, Server) != []
    ensures
      var w' := Retold(w, WithRole(roll.nodes, Server)[0].id, TokenRotateArgs(roll.held, roll.cfg.token));
      Rekeying(w, w', roll) && RekeyedTo(w, w', roll, 0)
  {
    hide OrderOf;
    hide Reseals;
    hide TokenRotateArgs;
    TokenReads(roll.held, roll.cfg.token);
    hide LaunchOf;
    var w' := Retold(w, WithRole(roll.nodes, Server)[0].id, TokenRotateArgs(roll.held, roll.cfg.token));
    assert forall x :: At(w', x) == At(w, x);
    assert forall n | n in OrderOf(roll) :: SameRole(w, w', n.id);
  }

  /** RotateToken; token is the one generated. */
  method RotateToken(p: Provisioner, c: string, force: bool) returns (r: Result<ClusterState>, ghost token: string)
    requires Tidy(p.world) && Lawful(p.world, c, p.domain)
    modifies p
    ensures p.Valid() && p.scope == c && p.origin == old(p.world)
    ensures SavedOf(old(p.world), c).Present? ==>
              forall k: nat | k < |p.trace| ::
                Rekeying(old(p.world), p.trace[k], Rekey(old(p.world), SavedOf(old(p.world), c).state, p.domain, token))
    ensures !force ==> r.Err? && p.world == old(p.world)
    ensures r.Ok? ==>
      && SavedOf(old(p.world), c).Present? && r.value.token == token
      && Rekeyed(old(p.world), p.world, SavedOf(old(p.world), c).state, r.value, p.domain)
  {
    p.Begin(c, Anything());
    ghost var w0 := p.world;
    var newToken: string := *;
    token := newToken;
    var loaded := p.LoadState(c);
    if SavedOf(w0, c).Present? {
      RekeyStarts(w0, Rekey(w0, SavedOf(w0, c).state, p.domain, token));
      p.Begin(c, RekeyingFrom(w0, Rekey(w0, SavedOf(w0, c).state, p.domain, token)));
    }
    if loaded.Err? {
      r := Err(loaded.error);
    } else {
      r := CheckedRotateToken(p, c, loaded.value, newToken, force, w0);
    }
    if SavedOf(w0, c).Present? {
      EveryRekeyPoint(p, w0, Rekey(w0, SavedOf(w0, c).state, p.domain, token));
    }
  }

  /** The checks RotateToken makes before it acts. */
  method CheckedRotateToken(p: Provisioner, c: string, st: ClusterState, newToken: string, force: bool, ghost w0: World) returns (r: Result<ClusterState>)
    requires p.Valid() && p.world == w0 && p.scope == c && SavedOf(w0, c) == Present(st)
    requires p.watch == RekeyingFrom(w0, Rekey(w0, st, p.domain, newToken))
    modifies p`world, p`trace
    ensures p.Valid()
    ensures !force ==> r.Err? && p.world == w0
    ensures r.Ok? ==> r.value.token == newToken && Rekeyed(w0, p.world, st, r.value, p.domain)
  {
    var servers := NodesWithRole(st.nodes, Server);
    if servers == [] {
      return Err(NoServer);
    }
    if !force {
      return Err(NotForced);
    }
    r := RunRotateToken(p, c, st, newToken, servers[0], w0);
  }

  /** runRotateToken. */
  method RunRotateToken(p: Provisioner, c: string, st: ClusterState, newToken: string, server: NodeInfo, ghost w0: World) returns (r: Result<ClusterState>)
    requires WithRole(st.nodes, Server) != [] && server == WithRole(st.nodes, Server)[0]
    requires p.Valid() && p.world == w0 && p.scope == c && SavedOf(w0, c) == Present(st)
    requires p.watch == RekeyingFrom(w0, Rekey(w0, st, p.domain, newToken))
    modifies p`world, p`trace
    ensures p.Valid()
    ensures r.Ok? ==> r.value.token == newToken && Rekeyed(w0, p.world, st, r.value, p.domain)
  {
    hide *;
    MayOpen(p, c, st, newToken, server, w0);
    var roll := Rekey(p.world, st, p.domain, newToken);
    var told := p.TellToken(server.id, TokenRotateArgs(st.token, newToken));
    if told.Fail? {
      return Err(told.error);
    }
    r := RekeyAndSave(p, c, st, newToken, roll, w0);
  }

  lemma MayOpen(p: Provisioner, c: string, st: ClusterState, newToken: string, server: NodeInfo, w0: World)
    requires WithRole(st.nodes, Server) != [] && server == WithRole(st.nodes, Server)[0]
    requires p.Valid() && p.world == w0 && p.scope == c && SavedOf(w0, c) == Present(st)
    requires p.watch == RekeyingFrom(w0, Rekey(w0, st, p.domain, newToken))
    ensures
      var roll, w := Rekey(w0, st, p.domain, newToken), Retold(w0, server.id, TokenRotateArgs(st.token, newToken));
      && Stage(p, roll, w0) && RekeyedTo(w0, w, roll, 0)
      && Shape(st, c, p.domain) && HostPath(w0.root)
      && Owned(server.id).Of(p.scope) && p.watch(w)
  {
    hide RekeyedTo;
    hide Rekeying;
    hide Owned;
    hide Shape;
    hide Numbered;
    p.Now();
    ShapeNamed(st, c, p.domain);
    RekeyFits(w0, st, c, p.domain, newToken);
    MayTell(w0, Rekey(w0, st, p.domain, newToken));
    OwnServer(st, server, c, p.domain);
  }

  lemma OwnServer(st: ClusterState, server: NodeInfo, c: string, d: string)
    requires Shape(st, c, d) && server in WithRole(st.nodes, Server)
    ensures Owned(server.id).Of(c)
  {
    hide Owned;
    hide Quorum;
    hide Fronted;
    assert server in st.nodes && Numbered(server, c, d);
    NumberedOwner(server, c, d);
  }

  method RekeyAndSave(p: Provisioner, c: string, st: ClusterState, newToken: string, roll: Roll, ghost w0: World) returns (r: Result<ClusterState>)
    requires p.Valid() && Stage(p, roll, w0) && RekeyedTo(w0, p.world, roll, 0) && roll == Rekey(w0, st, p.domain, newToken)
    requires Shape(st, c, p.domain) && p.scope == c && HostPath(w0.root)
    modifies p`world, p`trace
    ensures p.Valid()
    ensures r.Ok? ==> r.value.token == newToken && Rekeyed(w0, p.world, st, r.value, p.domain)
  {
    assert st.clusterName == c && roll.nodes == st.nodes;
    hide *;
    var nodes := RekeyAll(p, roll, w0);
    if nodes.Err? {
      return Err(nodes.error);
    }
    var st' := st.(token := newToken, nodes := nodes.value);
    ghost var w := p.world;
    MayRekeep(p, roll, w0, c, st, st');
    var saved := p.SaveState(st');
    if saved.Fail? {
      return Err(saved.error);
    }
    SavedRekey(w0, w, p.world, st, st', c, p.domain);
    r := Ok(st');
  }

  lemma MayRekeep(p: Provisioner, roll: Roll, w0: World, c: string, st: ClusterState, st': ClusterState)
    requires p.Valid() && Stage(p, roll, w0) && RekeyedTo(w0, p.world, roll, |OrderOf(roll)|)
    requires Shape(st, c, p.domain) && st' == st.(token := st'.token, nodes := st'.nodes) && Readdressed(st.nodes, st'.nodes)
    ensures Shape(st', c, p.domain) && Rollable(roll, p.domain)
    ensures forall path, file {:trigger Written(p.world, path, file)} :: p.watch(Written(p.world, path, file))
  {
    ShapeReaddressed(st, st', c, p.domain);
    forall path, file {:trigger Written(p.world, path, file)}
      ensures p.watch(Written(p.world, path, file))
    {
      RekeyedWritten(w0, p.world, roll, path, file);
    }
  }
}
