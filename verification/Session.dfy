/** Runs of any commands on any clusters (cmd/k3ac/main.go): whatever each of them comes to. */
module Session {
  import opened Types
  import opened Names
  import opened Ordering
  import opened Recipes
  import opened Records
  import opened World
  import opened Runtime
  import opened Fidelity
  import opened Frames
  import opened Lifecycle
  import opened Request
  import Checks
  import Rotation
  import Restoration = Restore
  import Teardown
  import Rolling
  import Token
  import NodeOps
  import Creation = Create

  datatype Command =
    | Create(request: ClusterConfig)
    | AddAgents(cluster: string, count: nat, memory: int, nanoCPUs: int, labels: seq<string>, extraArgs: seq<string>)
    | AddServer(cluster: string, memory: int, nanoCPUs: int, labels: seq<string>, extraArgs: seq<string>)
    | RemoveNode(cluster: string, node: string)
    | Start(cluster: string)
    | Stop(cluster: string)
    | Upgrade(cluster: string, image: string, force: bool)
    | Rollback(cluster: string, force: bool)
    | RotateToken(cluster: string, force: bool)
    | RotateCerts(cluster: string, force: bool)
    | Restore(cluster: string, snapDir: string, file: string, force: bool)
    | Destroy(cluster: string)
  {
    function On(): string {
      if Create? then request.name else cluster
    }
  }

  /** A command line the program accepts: a cluster name, a request it built, a usable image. */
  ghost predicate Proper(cmd: Command) {
    && ValidName(cmd.On())
    && (cmd.Create? ==> Requested(cmd.request))
    && (cmd.Upgrade? ==> UsableImage(cmd.image))
  }

  /** The names and labels of these clusters agree, and their records, where they can be read,
      are well shaped; nothing is asked of the rest of the host. */
  ghost predicate Fine(w: World, d: string, cs: set<string>) {
    Tidy(w) && forall c | c in cs :: CleanText(c) && Lawful(w, c, d)
  }

  // ---------------------------------------------------------------------------------------
  // What an operation on one cluster leaves of another
  // ---------------------------------------------------------------------------------------

  lemma OtherRecord(c: string, c': string, w0: World, w: World)
    requires CleanText(c) && CleanText(c') && c != c' && Untouched(c, w0, w)
    ensures SavedOf(w, c') == SavedOf(w0, c')
  {
    if Under(StatePath(w0.root, c'), w0.root, c) {
      DirsApart(w0.root, c, c', "state.json");
    }
  }

  lemma FineKept(c: string, d: string, w0: World, w: World, cs: set<string>)
    requires Fine(w0, d, cs) && c in cs && Kept(c, d, w0, w)
    ensures Fine(w, d, cs)
  {
    hide Marked;
    hide Recorded;
    hide Untouched;
    forall c' | c' in cs
      ensures Lawful(w, c', d)
    {
      if c' != c {
        OtherRecorded(c, c', d, w0, w);
        OtherMarked(c, c', w0, w);
      }
    }
  }

  lemma OtherRecorded(c: string, c': string, d: string, w0: World, w: World)
    requires CleanText(c) && CleanText(c') && c != c' && Untouched(c, w0, w) && Recorded(w0, c', d)
    ensures Recorded(w, c', d)
  {
    hide Shape;
    OtherRecord(c, c', w0, w);
  }

  lemma OtherMarked(c: string, c': string, w0: World, w: World)
    requires c != c' && Untouched(c, w0, w) && Marked(w, c) && Marked(w0, c')
    ensures Marked(w, c')
  {
    hide Owned;
    hide OwnedVolume;
    forall id | At(w, id).Some?
      ensures MarkedContainer(At(w, id).value, Owned(id), c')
    {
      assert MarkedContainer(At(w, id).value, Owned(id), c);
      assert !Owned(id).Of(c) ==> At(w, id) == At(w0, id);
    }
    forall v | Vol(w, v).Some?
      ensures Agrees(Vol(w, v).value.cluster, OwnedVolume(v), c')
    {
      assert Agrees(Vol(w, v).value.cluster, OwnedVolume(v), c);
      assert !OwnedVolume(v).Of(c) ==> Vol(w, v) == Vol(w0, v);
    }
  }

  /** The record can be trusted, if there is one. */
  ghost predicate Trusted(w: World, c: string, d: string) {
    SavedOf(w, c).Present? ==> Faithful(w, SavedOf(w, c).state, d)
  }

  lemma OtherFiles(c: string, c': string, w0: World, w: World, rest: string)
    requires CleanText(c) && CleanText(c') && c != c' && Untouched(c, w0, w)
    ensures FileAt(w, InDir(w0.root, c', rest)) == FileAt(w0, InDir(w0.root, c', rest))
  {
    if Under(InDir(w0.root, c', rest), w0.root, c) {
      DirsApart(w0.root, c, c', rest);
    }
  }

  /** An operation on one cluster leaves the record of another as faithful as it was. */
  lemma OtherTrusted(c: string, c': string, d: string, w0: World, w: World)
    requires CleanText(c) && CleanText(c') && c != c' && Untouched(c, w0, w) && Recorded(w0, c', d)
    ensures Trusted(w0, c', d) ==> Trusted(w, c', d)
  {
    hide InPlace;
    OtherRecord(c, c', w0, w);
    if SavedOf(w0, c').Present? && Trusted(w0, c', d) {
      var st := SavedOf(w0, c').state;
      OtherFiles(c, c', w0, w, "etcd-tls" + "/" + CLIENT);
      forall n | n in st.nodes
        ensures InPlace(w, n, st, d)
      {
        OtherInPlace(c, c', d, w0, w, st, n);
      }
    }
  }

  lemma OtherInPlace(c: string, c': string, d: string, w0: World, w: World, st: ClusterState, n: NodeInfo)
    requires CleanText(c') && c != c' && Untouched(c, w0, w) && Shape(st, c', d) && n in st.nodes && InPlace(w0, n, st, d)
    ensures InPlace(w, n, st, d)
  {
    hide Suits;
    hide MemberCommand;
    hide Owned;
    hide OwnedVolume;
    hide Quorum;
    hide Fronted;
    NumberedOwner(n, c', d);
  }

  // ---------------------------------------------------------------------------------------
  // What a command that succeeds leaves
  // ---------------------------------------------------------------------------------------

  /** A record that was there is there, with no fewer servers. */
  ghost predicate NoFewerServers(w0: World, w: World, c: string) {
    SavedOf(w0, c).Present? ==>
      SavedOf(w, c).Present? && |WithRole(SavedOf(w, c).state.nodes, Server)| >= |WithRole(SavedOf(w0, c).state.nodes, Server)|
  }

  lemma ReaddressedServers(w0: World, w: World, c: string)
    requires SavedOf(w0, c).Present? ==> SavedOf(w, c).Present? && Readdressed(SavedOf(w0, c).state.nodes, SavedOf(w, c).state.nodes)
    ensures NoFewerServers(w0, w, c)
  {
    if SavedOf(w0, c).Present? {
      ReaddressedRole(SavedOf(w0, c).state.nodes, SavedOf(w, c).state.nodes, Server);
    }
  }

  /** A success keeps a trusted record trusted, and its servers; a create makes one, and a
      destroy leaves nothing of the cluster. */
  ghost predicate Ended(cmd: Command, w0: World, w: World, d: string) {
    && (Trusted(w0, cmd.On(), d) || cmd.Create? ==> Trusted(w, cmd.On(), d))
    && (!cmd.Create? && !cmd.Destroy? ==> NoFewerServers(w0, w, cmd.On()))
    && (cmd.Create? ==> SavedOf(w, cmd.On()).Present?)
    && (cmd.Destroy? ==> Teardown.NothingLeft(w, cmd.On()))
  }

  /** Stopping and starting containers keeps a record trusted. */
  lemma RunningTrusted(w0: World, w: World, c: string, d: string)
    requires OnlyRunning(w0, w) && w.root == w0.root
    ensures SavedOf(w, c) == SavedOf(w0, c)
    ensures Trusted(w0, c, d) ==> Trusted(w, c, d)
  {
    if SavedOf(w0, c).Present? && Trusted(w0, c, d) {
      var st := SavedOf(w0, c).state;
      assert FileAt(w, TLSDir(w.root, st.clusterName, CLIENT)) == FileAt(w0, TLSDir(w0.root, st.clusterName, CLIENT));
      forall n | n in st.nodes
        ensures SameRole(w0, w, n.id)
      {
        assert Recipe(At(w, n.id)) == Recipe(At(w0, n.id));
      }
      assert forall v :: SameVolume(w0, w, v);
      assert SameClaims(st, st);
      FaithfulKept(w0, w, st, st, d);
    }
  }

  lemma NothingTrusted(w: World, c: string, d: string)
    requires Teardown.NothingLeft(w, c)
    ensures Trusted(w, c, d)
  {
    InUnder(w.root, c, "state.json");
  }

  // ---------------------------------------------------------------------------------------
  // Dependency order over whole runs
  // ---------------------------------------------------------------------------------------

  /** The commands that bring these nodes up and down in dependency order. */
  ghost predicate Orderly(cmd: Command, nodes: seq<NodeInfo>, d: string) {
    || cmd.Start? || cmd.Stop? || cmd.Restore? || cmd.RotateCerts?
    || (cmd.Create? && Requested(cmd.request) && nodes == Creation.PlanOf(cmd.request, d))
  }

  /** What runs of the nodes has what it depends on, and the record is of no others. */
  ghost predicate InPlan(w: World, c: string, nodes: seq<NodeInfo>) {
    OnRecord(w, c, nodes) && Closed(w, nodes)
  }

  lemma ClosedReaddressed(w: World, a: seq<NodeInfo>, b: seq<NodeInfo>)
    requires Readdressed(a, b) && Closed(w, a)
    ensures Closed(w, b)
  {
    forall x, y | x in b && y in b && StopRank(x.role) < StopRank(y.role) && Up(w, x.id)
      ensures Up(w, y.id)
    {
      var i: nat :| i < |b| && b[i] == x;
      var j: nat :| j < |b| && b[j] == y;
      SameNode(a[i], x);
      SameNode(a[j], y);
      assert a[i] in a && a[j] in a;
    }
  }

  lemma ReaddressedBack(a: seq<NodeInfo>, b: seq<NodeInfo>)
    requires Readdressed(a, b)
    ensures Readdressed(b, a)
  {
  }

  /** An order kept over the recorded nodes is kept over the same nodes at other addresses. */
  lemma PlanKept(w0: World, w: World, c: string, nodes: seq<NodeInfo>)
    requires InPlan(w0, c, nodes) && SavedOf(w0, c).Present?
    requires OnRecord(w, c, SavedOf(w0, c).state.nodes)
    requires Closed(w0, SavedOf(w0, c).state.nodes) ==> Closed(w, SavedOf(w0, c).state.nodes)
    ensures InPlan(w, c, nodes)
  {
    hide Closed;
    var recorded := SavedOf(w0, c).state.nodes;
    ClosedReaddressed(w0, nodes, recorded);
    ReaddressedBack(nodes, recorded);
    ClosedReaddressed(w, recorded, nodes);
    if SavedOf(w, c).Present? {
      ReaddressedTrans(nodes, recorded, SavedOf(w, c).state.nodes);
    }
  }

  /** Another cluster's operation leaves the plan alone. */
  lemma OtherPlan(c: string, c': string, d: string, w0: World, w: World, nodes: seq<NodeInfo>)
    requires CleanText(c) && CleanText(c') && c != c' && Untouched(c, w0, w) && AllNumbered(nodes, c', d)
    ensures InPlan(w0, c', nodes) ==> InPlan(w, c', nodes)
  {
    hide Owned;
    hide Numbered;
    OtherRecord(c, c', w0, w);
    forall n | n in nodes
      ensures At(w, n.id) == At(w0, n.id)
    {
      NumberedOwner(n, c', d);
    }
  }

  /** At every point of the run the nodes are in plan, if they were at first. */
  ghost predicate AlwaysInPlan(trace: seq<World>, w0: World, c: string, nodes: seq<NodeInfo>) {
    InPlan(w0, c, nodes) ==> forall k: nat | k < |trace| :: InPlan(trace[k], c, nodes)
  }

  lemma StillInPlan(w0: World, c: string, nodes: seq<NodeInfo>)
    ensures AlwaysInPlan([w0], w0, c, nodes)
  {
  }

  // ---------------------------------------------------------------------------------------
  // One CA over whole runs
  // ---------------------------------------------------------------------------------------

  /** The commands that restart nodes and rotate their keys. */
  predicate Calm(cmd: Command) {
    cmd.Start? || cmd.Stop? || cmd.RotateCerts?
  }

  /** The record is of these nodes, and all their bundles and all that run of them are on one CA. */
  ghost predicate OnOneBundle(w: World, c: string, nodes: seq<NodeInfo>) {
    OnRecord(w, c, nodes) && Rotation.Coherent(w, nodes, c)
  }

  /** From such a world on, all that run are on one CA at every point; at the end the bundles are
      one again, if the command is done with them. */
  ghost predicate CalmDone(trace: seq<World>, w0: World, w: World, c: string, nodes: seq<NodeInfo>, settled: bool) {
    OnOneBundle(w0, c, nodes) ==>
      && (forall k: nat | k < |trace| :: Rotation.OneCA(trace[k], nodes))
      && (settled ==> OnOneBundle(w, c, nodes))
  }

  /** Such is every cluster with a managed datastore once it is created. */
  lemma CreatedOnOneBundle(w0: World, w: World, request: ClusterConfig, st: ClusterState, d: string)
    requires Creation.Created(w0, w, request, st, d) && Managed(st)
    ensures OnOneBundle(w, request.name, st.nodes)
  {
    hide Shape;
    hide Faithful;
    hide Creation.Delivered;
    hide Creation.Told;
    hide Creation.Stocked;
    hide Rotation.Coherent;
    hide Rotation.FreshCA;
    hide Lineup;
    hide Infos;
    hide EndpointOf;
    hide Readdressed;
    NamedAs(st, request.name, d);
    SameAsIs(st.nodes);
  }

  lemma NamedAs(st: ClusterState, c: string, d: string)
    requires Shape(st, c, d)
    ensures st.clusterName == c
  {
  }

  lemma SameAsIs(nodes: seq<NodeInfo>)
    ensures Readdressed(nodes, nodes)
  {
  }

  lemma ReaddressedAt(a: seq<NodeInfo>, b: seq<NodeInfo>, n: NodeInfo)
    requires Readdressed(a, b) && n in b
    ensures exists m :: m in a && m.id == n.id && m.role == n.role && m.name == n.name
  {
    var k: nat :| k < |b| && b[k] == n;
    SameNode(a[k], b[k]);
    assert a[k] in a;
  }

  lemma CoherentReaddressed(w: World, a: seq<NodeInfo>, b: seq<NodeInfo>, c: string)
    requires Readdressed(a, b) && Rotation.Coherent(w, a, c)
    ensures Rotation.Coherent(w, b, c)
  {
    hide Readdressed;
    var g: nat :| Rotation.OnGeneration(w, a, c, g);
    forall n | n in b
      ensures exists m :: m in a && m.id == n.id && m.role == n.role && m.name == n.name
    {
      ReaddressedAt(a, b, n);
    }
    assert Rotation.OnGeneration(w, b, c, g);
  }

  lemma OneCAReaddressed(w: World, a: seq<NodeInfo>, b: seq<NodeInfo>)
    requires Readdressed(a, b) && Rotation.OneCA(w, a)
    ensures Rotation.OneCA(w, b)
  {
    hide Readdressed;
    forall n | n in b
      ensures exists m :: m in a && m.id == n.id && m.role == n.role && m.name == n.name
    {
      ReaddressedAt(a, b, n);
    }
  }

  lemma CalmStill(w: World, c: string, nodes: seq<NodeInfo>, settled: bool)
    ensures CalmDone([w], w, w, c, nodes, settled)
  {
    if OnOneBundle(w, c, nodes) {
      Rotation.CoherentAgrees(w, nodes, c);
    }
  }

  lemma CalmPoint(w0: World, w: World, c: string, nodes: seq<NodeInfo>)
    requires SavedOf(w0, c).Present? && OnOneBundle(w0, c, nodes) && w.root == w0.root
    requires Starting(w0, w, SavedOf(w0, c).state.nodes) || Stopping(w0, w, SavedOf(w0, c).state.nodes)
    ensures OnOneBundle(w, c, nodes) && Rotation.OneCA(w, nodes)
  {
    hide Rotation.Coherent;
    hide Closed;
    hide Recipe;
    hide Readdressed;
    var recorded := SavedOf(w0, c).state.nodes;
    CoherentReaddressed(w0, nodes, recorded, c);
    Rotation.CoherentKept(w0, w, recorded, c);
    ReaddressedBack(nodes, recorded);
    CoherentReaddressed(w, recorded, nodes, c);
    SameRecord(w0, w, c, nodes);
    Rotation.CoherentAgrees(w, nodes, c);
  }

  lemma CalmPoints(p: Provisioner, w0: World, c: string, nodes: seq<NodeInfo>)
    requires p.Valid() && p.scope == c && p.origin == w0 && SavedOf(w0, c).Present?
    requires (forall k: nat | k < |p.trace| :: Starting(w0, p.trace[k], SavedOf(w0, c).state.nodes))
          || (forall k: nat | k < |p.trace| :: Stopping(w0, p.trace[k], SavedOf(w0, c).state.nodes))
    ensures forall k: nat | k < |p.trace| :: InOrder(w0, p.trace[k], SavedOf(w0, c).state.nodes)
    ensures CalmDone(p.trace, w0, p.world, c, nodes, true)
  {
    hide OnOneBundle;
    hide InOrder;
    hide Risen;
    hide Sunk;
    hide Rotation.OneCA;
    if OnOneBundle(w0, c, nodes) {
      forall k: nat | k < |p.trace|
        ensures OnOneBundle(p.trace[k], c, nodes) && Rotation.OneCA(p.trace[k], nodes)
      {
        p.Then(k);
        CalmPoint(w0, p.trace[k], c, nodes);
      }
      assert p.trace[|p.trace| - 1] == p.world;
    }
  }

  lemma RotationCalm(p: Provisioner, w0: World, c: string, nodes: seq<NodeInfo>, ok: bool)
    requires p.Valid() && p.scope == c && p.origin == w0 && SavedOf(w0, c).Present?
    requires forall k: nat | k < |p.trace| :: Rotation.Rotating(w0, p.trace[k], SavedOf(w0, c).state.nodes, c)
    requires ok ==> Rotation.RotationDone(w0, p.world, c, p.domain)
    ensures CalmDone(p.trace, w0, p.world, c, nodes, ok)
  {
    hide Rotation.OneCA;
    hide Rotation.OnGeneration;
    hide Rotation.Wired;
    hide Rotation.AllReissued;
    hide Rotation.FreshCA;
    hide Faithful;
    hide Framed;
    hide Closed;
    hide Readdressed;
    hide ConfigFromState;
    hide Managed;
    if OnOneBundle(w0, c, nodes) {
      var recorded := SavedOf(w0, c).state.nodes;
      CoherentReaddressed(w0, nodes, recorded, c);
      Rotation.CoherentAgrees(w0, recorded, c);
      ReaddressedBack(nodes, recorded);
      forall k: nat | k < |p.trace|
        ensures Rotation.OneCA(p.trace[k], nodes)
      {
        OneCAReaddressed(p.trace[k], recorded, nodes);
      }
      if ok {
        CoherentReaddressed(p.world, recorded, nodes, c);
        ReaddressedTrans(nodes, recorded, SavedOf(p.world, c).state.nodes);
      }
    }
  }

  /** Another cluster's operation leaves it alone. */
  lemma OtherOnOneBundle(c: string, c': string, d: string, w0: World, w: World, nodes: seq<NodeInfo>)
    requires CleanText(c) && CleanText(c') && c != c' && Untouched(c, w0, w) && AllNumbered(nodes, c', d)
    requires OnOneBundle(w0, c', nodes)
    ensures OnOneBundle(w, c', nodes) && Rotation.OneCA(w, nodes)
  {
    hide Owned;
    hide Numbered;
    hide TLSSource;
    OtherRecord(c, c', w0, w);
    var g: nat :| Rotation.OnGeneration(w0, nodes, c', g);
    forall n | n in nodes
      ensures At(w, n.id) == At(w0, n.id)
      ensures FileAt(w, TLSDir(w.root, c', BundleOf(n))) == FileAt(w0, TLSDir(w0.root, c', BundleOf(n)))
    {
      NumberedOwner(n, c', d);
      OtherFiles(c, c', w0, w, "etcd-tls" + "/" + BundleOf(n));
    }
    assert Rotation.OnGeneration(w, nodes, c', g);
    Rotation.CoherentAgrees(w, nodes, c');
  }

  // ---------------------------------------------------------------------------------------
  // Running one command
  // ---------------------------------------------------------------------------------------

  lemma LifecyclePoints(p: Provisioner, w0: World, c: string, nodes: seq<NodeInfo>)
    requires p.Valid() && p.scope == c && p.origin == w0 && SavedOf(w0, c).Present?
    requires forall k: nat | k < |p.trace| :: InOrder(w0, p.trace[k], SavedOf(w0, c).state.nodes)
    ensures AlwaysInPlan(p.trace, w0, c, nodes)
    ensures SavedOf(p.world, c) == SavedOf(w0, c)
    ensures NoFewerServers(w0, p.world, c)
    ensures Trusted(w0, c, p.domain) ==> Trusted(p.world, c, p.domain)
  {
    hide Closed;
    hide Trusted;
    hide Recipe;
    p.Now();
    assert p.trace[|p.trace| - 1] == p.world;
    RunningTrusted(w0, p.world, c, p.domain);
    if InPlan(w0, c, nodes) {
      forall k: nat | k < |p.trace|
        ensures InPlan(p.trace[k], c, nodes)
      {
        p.Then(k);
        SameRecord(w0, p.trace[k], c, SavedOf(w0, c).state.nodes);
        PlanKept(w0, p.trace[k], c, nodes);
      }
    }
  }

  lemma LastOfOne(p: Provisioner)
    requires p.Valid() && |p.trace| == 1
    ensures p.world == p.trace[0]
  {
  }

  method DoStart(p: Provisioner, c: string, ghost nodes: seq<NodeInfo>) returns (ok: bool)
    requires Tidy(p.world) && Lawful(p.world, c, p.domain)
    modifies p
    ensures p.Valid() && p.scope == c && p.origin == old(p.world) && AlwaysInPlan(p.trace, old(p.world), c, nodes)
    ensures ok && Trusted(old(p.world), c, p.domain) ==> Trusted(p.world, c, p.domain)
    ensures ok ==> NoFewerServers(old(p.world), p.world, c)
    ensures CalmDone(p.trace, old(p.world), p.world, c, nodes, true)
  {
    hide *;
    ghost var w0 := p.world;
    var r := Lifecycle.Start(p, c);
    if SavedOf(w0, c).Present? {
      CalmPoints(p, w0, c, nodes);
      LifecyclePoints(p, w0, c, nodes);
    } else {
      LastOfOne(p);
      CalmStill(w0, c, nodes, true);
      StillInPlan(w0, c, nodes);
    }
    ok := r.Pass?;
  }

  method DoStop(p: Provisioner, c: string, ghost nodes: seq<NodeInfo>) returns (ok: bool)
    requires Tidy(p.world) && Lawful(p.world, c, p.domain)
    modifies p
    ensures p.Valid() && p.scope == c && p.origin == old(p.world) && AlwaysInPlan(p.trace, old(p.world), c, nodes)
    ensures ok && Trusted(old(p.world), c, p.domain) ==> Trusted(p.world, c, p.domain)
    ensures ok ==> NoFewerServers(old(p.world), p.world, c)
    ensures CalmDone(p.trace, old(p.world), p.world, c, nodes, true)
  {
    hide *;
    ghost var w0 := p.world;
    var r := Lifecycle.Stop(p, c);
    if SavedOf(w0, c).Present? {
      CalmPoints(p, w0, c, nodes);
      LifecyclePoints(p, w0, c, nodes);
    } else {
      LastOfOne(p);
      CalmStill(w0, c, nodes, true);
      StillInPlan(w0, c, nodes);
    }
    ok := r.Pass?;
  }

  lemma RotationPoints(p: Provisioner, w0: World, c: string, nodes: seq<NodeInfo>)
    requires p.Valid() && p.scope == c && p.origin == w0 && SavedOf(w0, c).Present?
    requires forall k: nat | k < |p.trace| :: Rotation.Rotating(w0, p.trace[k], SavedOf(w0, c).state.nodes, c)
    ensures AlwaysInPlan(p.trace, w0, c, nodes)
  {
    hide Closed;
    hide Framed;
    hide Rotation.OneCA;
    hide Rotation.Wired;
    if InPlan(w0, c, nodes) {
      forall k: nat | k < |p.trace|
        ensures InPlan(p.trace[k], c, nodes)
      {
        PlanKept(w0, p.trace[k], c, nodes);
      }
    }
  }

  lemma RotationTrusted(w0: World, w: World, c: string, d: string)
    requires Rotation.RotationDone(w0, w, c, d)
    ensures Trusted(w0, c, d) ==> Trusted(w, c, d)
    ensures NoFewerServers(w0, w, c)
  {
    ReaddressedServers(w0, w, c);
  }

  method DoRotateCerts(p: Provisioner, c: string, force: bool, ghost nodes: seq<NodeInfo>) returns (ok: bool)
    requires Tidy(p.world) && Lawful(p.world, c, p.domain)
    modifies p
    ensures p.Valid() && p.scope == c && p.origin == old(p.world) && AlwaysInPlan(p.trace, old(p.world), c, nodes)
    ensures ok && Trusted(old(p.world), c, p.domain) ==> Trusted(p.world, c, p.domain)
    ensures ok ==> NoFewerServers(old(p.world), p.world, c)
    ensures CalmDone(p.trace, old(p.world), p.world, c, nodes, ok)
  {
    hide *;
    ghost var w0 := p.world;
    var r := Rotation.RotateCerts(p, c, force);
    if SavedOf(w0, c).Present? {
      RotationCalm(p, w0, c, nodes, r.Pass?);
      RotationPoints(p, w0, c, nodes);
    } else {
      LastOfOne(p);
      CalmStill(w0, c, nodes, r.Pass?);
      StillInPlan(w0, c, nodes);
    }
    if r.Pass? {
      RotationTrusted(w0, p.world, c, p.domain);
    }
    ok := r.Pass?;
  }

  lemma RestorePoints(p: Provisioner, w0: World, c: string, nodes: seq<NodeInfo>, plan: Restoration.Plan)
    requires p.Valid() && p.scope == c && p.origin == w0 && SavedOf(w0, c).Present? && plan.c == c
    requires forall k: nat | k < |p.trace| :: Restoration.Restoring(w0, p.trace[k], SavedOf(w0, c).state.nodes, plan)
    ensures AlwaysInPlan(p.trace, w0, c, nodes)
  {
    hide Closed;
    hide Framed;
    hide Restoration.DataKept;
    hide Restoration.VolumesFirst;
    hide Restoration.MarkerFirst;
    if InPlan(w0, c, nodes) {
      forall k: nat | k < |p.trace|
        ensures InPlan(p.trace[k], c, nodes)
      {
        PlanKept(w0, p.trace[k], c, nodes);
      }
    }
  }

  lemma RestoreTrusted(w0: World, w: World, c: string, d: string, snapDir: string, file: string)
    requires Restoration.RestoreDone(w0, w, c, d, snapDir, file)
    ensures Trusted(w0, c, d) ==> Trusted(w, c, d)
    ensures NoFewerServers(w0, w, c)
  {
    hide Restoration.AllRestored;
    hide Restoration.PlanOf;
    ReaddressedServers(w0, w, c);
  }

  lemma PlanOnCluster(w: World, st: ClusterState, c: string, d: string, snapDir: string, file: string)
    requires Shape(st, c, d)
    ensures Restoration.PlanOf(w, st, d, snapDir, file).c == c
  {
  }

  method DoRestore(p: Provisioner, c: string, snapDir: string, file: string, force: bool, ghost nodes: seq<NodeInfo>) returns (ok: bool)
    requires Tidy(p.world) && Lawful(p.world, c, p.domain)
    modifies p
    ensures p.Valid() && p.scope == c && p.origin == old(p.world) && AlwaysInPlan(p.trace, old(p.world), c, nodes)
    ensures ok && Trusted(old(p.world), c, p.domain) ==> Trusted(p.world, c, p.domain)
    ensures ok ==> NoFewerServers(old(p.world), p.world, c)
  {
    hide *;
    ghost var w0 := p.world;
    RecordShape(w0, c, p.domain);
    var r := Restoration.Restore(p, c, snapDir, file, force);
    if SavedOf(w0, c).Present? {
      PlanOnCluster(w0, SavedOf(w0, c).state, c, p.domain, snapDir, file);
      RestorePoints(p, w0, c, nodes, Restoration.PlanOf(w0, SavedOf(w0, c).state, p.domain, snapDir, file));
    } else {
      StillInPlan(w0, c, nodes);
    }
    if r.Pass? {
      RestoreTrusted(w0, p.world, c, p.domain, snapDir, file);
    }
    ok := r.Pass?;
  }

  lemma RecordShape(w: World, c: string, d: string)
    requires Lawful(w, c, d)
    ensures SavedOf(w, c).Present? ==> Shape(SavedOf(w, c).state, c, d) && SavedOf(w, c).state.clusterName == c
  {
  }

  lemma CreatePoints(p: Provisioner, w0: World, c: string, plan: seq<NodeInfo>, nodes: seq<NodeInfo>)
    requires forall k: nat | k < |p.trace| :: Creation.Creating(w0, p.trace[k], plan, c)
    ensures nodes == plan ==> AlwaysInPlan(p.trace, w0, c, nodes)
  {
    hide Closed;
    hide OnRecord;
  }

  lemma CreatedTrusted(w0: World, w: World, request: ClusterConfig, st: ClusterState, d: string)
    requires Creation.Created(w0, w, request, st, d)
    ensures Trusted(w, request.name, d) && SavedOf(w, request.name).Present?
  {
    hide Shape;
    hide Faithful;
    hide Creation.Delivered;
    hide EndpointOf;
  }

  lemma Reachable(host: Checks.Host, files: map<string, string>)
    requires host.manifests == map m | m in files && HostPath(files[m]) :: files[m]
    ensures Creation.Pathed(host)
  {
  }

  method DoCreate(p: Provisioner, request: ClusterConfig, ghost nodes: seq<NodeInfo>) returns (ok: bool)
    requires Tidy(p.world) && Lawful(p.world, request.name, p.domain) && Requested(request)
    modifies p
    ensures p.Valid() && p.scope == request.name && p.origin == old(p.world)
    ensures nodes == Creation.PlanOf(request, p.domain) ==> AlwaysInPlan(p.trace, old(p.world), request.name, nodes)
    ensures ok ==> Trusted(p.world, request.name, p.domain) && SavedOf(p.world, request.name).Present?
  {
    hide *;
    ghost var w0 := p.world;
    var bundles: set<string>, files: map<string, string> := *, *;
    var host := Checks.Host(bundles, map m | m in files && HostPath(files[m]) :: files[m]);
    Reachable(host, files);
    var r := Creation.Create(p, host, request);
    CreatePoints(p, w0, request.name, Creation.PlanOf(request, p.domain), nodes);
    if r.Ok? {
      CreatedTrusted(w0, p.world, request, r.value, p.domain);
    }
    ok := r.Ok?;
  }

  lemma GrewTrusted(w0: World, w: World, st: ClusterState, st': ClusterState, c: string, d: string, role: Role, count: nat)
    requires NodeOps.Grew(w0, w, st, st', c, d, role, count) && SavedOf(w0, c) == Present(st)
    ensures Trusted(w0, c, d) ==> Trusted(w, c, d)
    ensures NoFewerServers(w0, w, c)
  {
    hide Faithful;
    WithRoleCat(st.nodes, st'.nodes[|st.nodes|..], Server);
  }

  lemma ServerTrusted(w0: World, w: World, st: ClusterState, st': ClusterState, server: NodeConfig, c: string, d: string)
    requires NodeOps.ServerAdded(w0, w, st, st', server, c, d) && SavedOf(w0, c) == Present(st)
    ensures Trusted(w0, c, d) ==> Trusted(w, c, d)
    ensures NoFewerServers(w0, w, c)
  {
    hide Faithful;
    var last := st'.nodes[|st.nodes|];
    RolesAfter(st.nodes, last, Server);
    ReaddressedRole(st.nodes + [last], st'.nodes, Server);
  }

  lemma RemovedTrusted(w0: World, w: World, st: ClusterState, k: nat, c: string, d: string)
    requires NodeOps.NodeRemoved(w0, w, st, k, c, d) && SavedOf(w0, c) == Present(st)
    ensures Trusted(w0, c, d) ==> Trusted(w, c, d)
    ensures NoFewerServers(w0, w, c)
  {
    hide Faithful;
  }

  lemma RollTrusted(w0: World, w: World, st: ClusterState, st': ClusterState, c: string, d: string, image: string)
    requires Rolling.RollDone(w0, w, st, st', d, image) && SavedOf(w0, c) == Present(st) && st.clusterName == c
    ensures Trusted(w0, c, d) ==> Trusted(w, c, d)
    ensures NoFewerServers(w0, w, c)
  {
    hide Faithful;
    hide Rolling.RolledTo;
    ReaddressedServers(w0, w, c);
  }

  lemma RekeyTrusted(w0: World, w: World, st: ClusterState, st': ClusterState, c: string, d: string)
    requires Token.Rekeyed(w0, w, st, st', d) && SavedOf(w0, c) == Present(st) && st.clusterName == c
    ensures Trusted(w0, c, d) ==> Trusted(w, c, d)
    ensures NoFewerServers(w0, w, c)
  {
    hide Faithful;
    hide Token.AllRecreated;
    ReaddressedServers(w0, w, c);
  }

  method DoAddAgents(p: Provisioner, c: string, count: nat, memory: int, nanoCPUs: int, labels: seq<string>, extraArgs: seq<string>) returns (ok: bool)
    requires Tidy(p.world) && Lawful(p.world, c, p.domain)
    modifies p
    ensures p.Valid() && p.scope == c && p.origin == old(p.world)
    ensures ok && Trusted(old(p.world), c, p.domain) ==> Trusted(p.world, c, p.domain)
    ensures ok ==> NoFewerServers(old(p.world), p.world, c)
  {
    hide *;
    ghost var w0 := p.world;
    var r, idx := NodeOps.AddAgents(p, c, count, memory, nanoCPUs, labels, extraArgs);
    if r.Ok? {
      GrewTrusted(w0, p.world, SavedOf(w0, c).state, r.value, c, p.domain, Agent, count);
    }
    ok := r.Ok?;
  }

  method DoAddServer(p: Provisioner, c: string, memory: int, nanoCPUs: int, labels: seq<string>, extraArgs: seq<string>) returns (ok: bool)
    requires Tidy(p.world) && Lawful(p.world, c, p.domain)
    modifies p
    ensures p.Valid() && p.scope == c && p.origin == old(p.world)
    ensures ok && Trusted(old(p.world), c, p.domain) ==> Trusted(p.world, c, p.domain)
    ensures ok ==> NoFewerServers(old(p.world), p.world, c)
  {
    hide *;
    ghost var w0 := p.world;
    ghost var idx: nat;
    var r: Result<ClusterState>;
    r, idx := NodeOps.AddServer(p, c, memory, nanoCPUs, labels, extraArgs);
    if r.Ok? {
      ServerTrusted(w0, p.world, SavedOf(w0, c).state, r.value, NodeConfig(ServerName(c, idx), Server, memory, nanoCPUs, labels, extraArgs), c, p.domain);
    }
    ok := r.Ok?;
  }

  method DoRemoveNode(p: Provisioner, c: string, node: string) returns (ok: bool)
    requires Tidy(p.world) && Lawful(p.world, c, p.domain)
    modifies p
    ensures p.Valid() && p.scope == c && p.origin == old(p.world)
    ensures ok && Trusted(old(p.world), c, p.domain) ==> Trusted(p.world, c, p.domain)
    ensures ok ==> NoFewerServers(old(p.world), p.world, c)
  {
    hide *;
    ghost var w0 := p.world;
    var r := NodeOps.RemoveNode(p, c, node);
    if r.Pass? {
      RemovedTrusted(w0, p.world, SavedOf(w0, c).state, NodeOps.IndexOf(SavedOf(w0, c).state.nodes, node).value, c, p.domain);
    }
    ok := r.Pass?;
  }

  method DoUpgrade(p: Provisioner, c: string, image: string, force: bool) returns (ok: bool)
    requires Tidy(p.world) && Lawful(p.world, c, p.domain) && UsableImage(image)
    modifies p
    ensures p.Valid() && p.scope == c && p.origin == old(p.world)
    ensures ok && Trusted(old(p.world), c, p.domain) ==> Trusted(p.world, c, p.domain)
    ensures ok ==> NoFewerServers(old(p.world), p.world, c)
  {
    hide *;
    ghost var w0 := p.world;
    RecordShape(w0, c, p.domain);
    var r := Rolling.Upgrade(p, c, image, force);
    if r.Ok? {
      RollTrusted(w0, p.world, SavedOf(w0, c).state, r.value, c, p.domain, image);
    }
    ok := r.Ok?;
  }

  method DoRollback(p: Provisioner, c: string, force: bool) returns (ok: bool)
    requires Tidy(p.world) && Lawful(p.world, c, p.domain)
    modifies p
    ensures p.Valid() && p.scope == c && p.origin == old(p.world)
    ensures ok && Trusted(old(p.world), c, p.domain) ==> Trusted(p.world, c, p.domain)
    ensures ok ==> NoFewerServers(old(p.world), p.world, c)
  {
    hide *;
    ghost var w0 := p.world;
    RecordShape(w0, c, p.domain);
    var r := Rolling.Rollback(p, c, force);
    if r.Ok? {
      RollTrusted(w0, p.world, SavedOf(w0, c).state, r.value, c, p.domain, SavedOf(w0, c).state.previousImage);
    }
    ok := r.Ok?;
  }

  method DoRotateToken(p: Provisioner, c: string, force: bool) returns (ok: bool)
    requires Tidy(p.world) && Lawful(p.world, c, p.domain)
    modifies p
    ensures p.Valid() && p.scope == c && p.origin == old(p.world)
    ensures ok && Trusted(old(p.world), c, p.domain) ==> Trusted(p.world, c, p.domain)
    ensures ok ==> NoFewerServers(old(p.world), p.world, c)
  {
    hide *;
    ghost var w0 := p.world;
    RecordShape(w0, c, p.domain);
    var r, token := Token.RotateToken(p, c, force);
    if r.Ok? {
      RekeyTrusted(w0, p.world, SavedOf(w0, c).state, r.value, c, p.domain);
    }
    ok := r.Ok?;
  }

  method DoDestroy(p: Provisioner, c: string) returns (ok: bool)
    requires Tidy(p.world) && Lawful(p.world, c, p.domain) && c != ""
    modifies p
    ensures p.Valid() && p.scope == c && p.origin == old(p.world)
    ensures ok ==> Trusted(p.world, c, p.domain) && Teardown.NothingLeft(p.world, c)
  {
    hide *;
    var r := Teardown.Destroy(p, c);
    if r.Pass? {
      NothingTrusted(p.world, c, p.domain);
    }
    ok := r.Pass?;
  }

  lemma MayExecute(p: Provisioner, cmd: Command)
    requires Fine(p.world, p.domain, {cmd.On()}) && Proper(cmd)
    ensures Tidy(p.world) && Lawful(p.world, cmd.On(), p.domain) && cmd.On() != ""
    ensures cmd.Create? ==> Requested(cmd.request) && cmd.On() == cmd.request.name
    ensures !cmd.Create? ==> cmd.On() == cmd.cluster
    ensures cmd.Upgrade? ==> UsableImage(cmd.image)
  {
  }

  lemma CreateOrderly(cmd: Command, nodes: seq<NodeInfo>, d: string)
    requires cmd.Create? && Orderly(cmd, nodes, d)
    ensures Requested(cmd.request) && nodes == Creation.PlanOf(cmd.request, d)
  {
  }

  lemma NotOrderly(cmd: Command, nodes: seq<NodeInfo>, d: string)
    ensures Orderly(cmd, nodes, d) ==> cmd.Create? || cmd.Start? || cmd.Stop? || cmd.Restore? || cmd.RotateCerts?
  {
  }

  lemma NotCalm(cmd: Command)
    ensures Calm(cmd) <==> cmd.Start? || cmd.Stop? || cmd.RotateCerts?
  {
  }

  lemma HasEnded(cmd: Command, w0: World, w: World, d: string)
    requires Trusted(w0, cmd.On(), d) || cmd.Create? ==> Trusted(w, cmd.On(), d)
    requires !cmd.Create? && !cmd.Destroy? ==> NoFewerServers(w0, w, cmd.On())
    requires cmd.Create? ==> SavedOf(w, cmd.On()).Present?
    requires cmd.Destroy? ==> Teardown.NothingLeft(w, cmd.On())
    ensures Ended(cmd, w0, w, d)
  {
  }

  /** One command: it starts from any fine world, and may fail at any step. */
  method Execute(p: Provisioner, cmd: Command, ghost nodes: seq<NodeInfo>) returns (ok: bool)
    requires Fine(p.world, p.domain, {cmd.On()}) && Proper(cmd)
    modifies p
    ensures p.Valid() && p.scope == cmd.On() && p.origin == old(p.world)
    ensures Orderly(cmd, nodes, p.domain) ==> AlwaysInPlan(p.trace, old(p.world), cmd.On(), nodes)
    ensures Calm(cmd) ==> CalmDone(p.trace, old(p.world), p.world, cmd.On(), nodes, ok || !cmd.RotateCerts?)
    ensures ok ==> Ended(cmd, old(p.world), p.world, p.domain)
  {
    hide *;
    ghost var w0 := p.world;
    MayExecute(p, cmd);
    NotOrderly(cmd, nodes, p.domain);
    NotCalm(cmd);
    match cmd {
      case Create(request) =>
        if Orderly(cmd, nodes, p.domain) {
          CreateOrderly(cmd, nodes, p.domain);
        }
        ok := DoCreate(p, request, nodes);
      case AddAgents(c, count, memory, nanoCPUs, labels, extraArgs) => ok := DoAddAgents(p, c, count, memory, nanoCPUs, labels, extraArgs);
      case AddServer(c, memory, nanoCPUs, labels, extraArgs) => ok := DoAddServer(p, c, memory, nanoCPUs, labels, extraArgs);
      case RemoveNode(c, node) => ok := DoRemoveNode(p, c, node);
      case Start(c) => ok := DoStart(p, c, nodes);
      case Stop(c) => ok := DoStop(p, c, nodes);
      case Upgrade(c, image, force) => ok := DoUpgrade(p, c, image, force);
      case Rollback(c, force) => ok := DoRollback(p, c, force);
      case RotateToken(c, force) => ok := DoRotateToken(p, c, force);
      case RotateCerts(c, force) => ok := DoRotateCerts(p, c, force, nodes);
      case Restore(c, snapDir, file, force) => ok := DoRestore(p, c, snapDir, file, force, nodes);
      case Destroy(c) => ok := DoDestroy(p, c);
    }
    if ok {
      HasEnded(cmd, w0, p.world, p.domain);
    }
  }

  /** Nothing of a cluster that is not there runs, and it has no record: any request for it can
      be brought up in plan. */
  lemma FreshInPlan(w: World, request: ClusterConfig, d: string)
    requires Requested(request) && Teardown.NothingLeft(w, request.name)
    ensures
      var plan := Creation.PlanOf(request, d);
      CleanText(request.name) && AllNumbered(plan, request.name, d) && InPlan(w, request.name, plan)
  {
    hide Numbered;
    hide Owned;
    hide Under;
    var plan := Creation.PlanOf(request, d);
    LineupNamed(request, d);
    InUnder(w.root, request.name, "state.json");
    forall n | n in plan
      ensures !Up(w, n.id)
    {
      NumberedOwner(n, request.name, d);
    }
  }

  // ---------------------------------------------------------------------------------------
  // Running many
  // ---------------------------------------------------------------------------------------

  function Clusters(cmds: seq<Command>): set<string> {
    set cmd | cmd in cmds :: cmd.On()
  }

  predicate Belongs(o: Owner, cs: set<string>) {
    !o.Foreign? && o.cluster in cs
  }

  /** Nothing but these clusters' containers, volumes and files differs. */
  ghost predicate OnlyThese(cs: set<string>, w0: World, w: World) {
    && w.root == w0.root
    && (forall id :: At(w, id) != At(w0, id) ==> Belongs(Owned(id), cs))
    && (forall v :: Vol(w, v) != Vol(w0, v) ==> Belongs(OwnedVolume(v), cs))
    && (forall path :: FileAt(w, path) != FileAt(w0, path) ==> exists c :: c in cs && Under(path, w0.root, c))
  }

  lemma OnlyTheseMore(cs: set<string>, c: string, w0: World, w: World, w': World)
    requires OnlyThese(cs, w0, w) && c in cs && Untouched(c, w, w')
    ensures OnlyThese(cs, w0, w')
  {
    hide Owned;
    hide OwnedVolume;
    hide Under;
  }

  /** Every command so far on the cluster succeeded. */
  ghost predicate Succeeded(cmds: seq<Command>, oks: seq<bool>, c: string) {
    |oks| <= |cmds| && forall k: nat | k < |oks| && cmds[k].On() == c :: oks[k]
  }

  /** Where all went well, a record that could be trusted still can. */
  ghost predicate TrustKept(cmds: seq<Command>, oks: seq<bool>, w0: World, w: World, d: string) {
    forall c | c in Clusters(cmds) && Trusted(w0, c, d) && Succeeded(cmds, oks, c) :: Trusted(w, c, d)
  }

  /** The cluster's last command so far was a destroy that succeeded. */
  ghost predicate Destroyed(cmds: seq<Command>, oks: seq<bool>, c: string) {
    |oks| <= |cmds| && exists k: nat ::
      k < |oks| && oks[k] && cmds[k].Destroy? && cmds[k].On() == c && forall j: nat | k < j < |oks| :: cmds[j].On() != c
  }

  /** Of clusters so destroyed nothing is left. */
  ghost predicate DestroyKept(cmds: seq<Command>, oks: seq<bool>, w: World) {
    forall c | c in Clusters(cmds) && Destroyed(cmds, oks, c) :: Teardown.NothingLeft(w, c)
  }

  /** Each world is fine, and differs from the first in these clusters only. */
  ghost predicate Followed(history: seq<World>, w0: World, cs: set<string>, d: string) {
    forall k: nat | k < |history| :: Fine(history[k], d, cs) && OnlyThese(cs, w0, history[k])
  }

  lemma StepFollows(p: Provisioner, w0: World, cs: set<string>)
    requires p.Valid() && p.scope in cs && Fine(p.origin, p.domain, cs) && OnlyThese(cs, w0, p.origin)
    ensures Followed(p.trace, w0, cs, p.domain)
  {
    hide Fine;
    hide OnlyThese;
    forall k: nat | k < |p.trace|
      ensures Fine(p.trace[k], p.domain, cs) && OnlyThese(cs, w0, p.trace[k])
    {
      p.Then(k);
      FineKept(p.scope, p.domain, p.origin, p.trace[k], cs);
      OnlyTheseMore(cs, p.scope, w0, p.origin, p.trace[k]);
    }
  }

  ghost predicate AllInPlan(history: seq<World>, c: string, nodes: seq<NodeInfo>) {
    forall k: nat | k < |history| :: InPlan(history[k], c, nodes)
  }

  lemma StepInPlan(p: Provisioner, c: string, nodes: seq<NodeInfo>)
    requires p.Valid() && CleanText(p.scope) && CleanText(c) && AllNumbered(nodes, c, p.domain) && InPlan(p.origin, c, nodes)
    requires p.scope == c ==> AlwaysInPlan(p.trace, p.origin, c, nodes)
    ensures AllInPlan(p.trace, c, nodes)
  {
    hide InPlan;
    if p.scope != c {
      forall k: nat | k < |p.trace|
        ensures InPlan(p.trace[k], c, nodes)
      {
        p.Then(k);
        OtherPlan(p.scope, c, p.domain, p.origin, p.trace[k], nodes);
      }
    }
  }

  ghost predicate AllOneCA(history: seq<World>, nodes: seq<NodeInfo>) {
    forall k: nat | k < |history| :: Rotation.OneCA(history[k], nodes)
  }

  lemma StepCalm(p: Provisioner, c: string, nodes: seq<NodeInfo>, settled: bool)
    requires p.Valid() && CleanText(p.scope) && CleanText(c) && AllNumbered(nodes, c, p.domain) && OnOneBundle(p.origin, c, nodes)
    requires p.scope == c ==> CalmDone(p.trace, p.origin, p.world, c, nodes, settled)
    ensures AllOneCA(p.trace, nodes)
    ensures p.scope != c || settled ==> OnOneBundle(p.world, c, nodes)
  {
    hide OnOneBundle;
    hide Rotation.OneCA;
    if p.scope != c {
      forall k: nat | k < |p.trace|
        ensures Rotation.OneCA(p.trace[k], nodes) && OnOneBundle(p.trace[k], c, nodes)
      {
        p.Then(k);
        OtherOnOneBundle(p.scope, c, p.domain, p.origin, p.trace[k], nodes);
      }
      assert p.trace[|p.trace| - 1] == p.world;
    }
  }

  lemma OneCAMore(a: seq<World>, b: seq<World>, nodes: seq<NodeInfo>)
    requires AllOneCA(a, nodes) && AllOneCA(b, nodes)
    ensures AllOneCA(a + b, nodes)
  {
    hide Rotation.OneCA;
  }

  lemma StepTrusted(cmds: seq<Command>, oks: seq<bool>, ok: bool, w0: World, w: World, w': World, d: string)
    requires |oks| < |cmds| && Fine(w, d, Clusters(cmds)) && TrustKept(cmds, oks, w0, w, d)
    requires Untouched(cmds[|oks|].On(), w, w') && (ok ==> Ended(cmds[|oks|], w, w', d))
    requires CleanText(cmds[|oks|].On())
    ensures TrustKept(cmds, oks + [ok], w0, w', d)
  {
    hide Trusted;
    hide Untouched;
    hide Marked;
    var cmd := cmds[|oks|];
    forall c | c in Clusters(cmds) && Trusted(w0, c, d) && Succeeded(cmds, oks + [ok], c)
      ensures Trusted(w', c, d)
    {
      assert Succeeded(cmds, oks, c) by {
        assert forall k: nat | k < |oks| :: (oks + [ok])[k] == oks[k];
      }
      if c == cmd.On() {
        assert (oks + [ok])[|oks|];
      } else {
        OtherTrusted(cmd.On(), c, d, w, w');
      }
    }
  }

  lemma UnderOne(path: string, root: string, c: string, c': string)
    requires CleanText(c) && CleanText(c') && Under(path, root, c) && Under(path, root, c')
    ensures c == c'
  {
    var rest := path[|ClusterDir(root, c') + "/"|..];
    assert path == InDir(root, c', rest);
    DirsApart(root, c, c', rest);
  }

  lemma OtherNothing(c: string, c': string, w: World, w': World)
    requires CleanText(c) && CleanText(c') && c != c' && Untouched(c, w, w') && Teardown.NothingLeft(w, c')
    ensures Teardown.NothingLeft(w', c')
  {
    hide Owned;
    hide OwnedVolume;
    hide Under;
    forall path | Under(path, w'.root, c')
      ensures FileAt(w', path).None?
    {
      if Under(path, w.root, c) {
        UnderOne(path, w.root, c, c');
      }
    }
  }

  lemma StepDestroyed(cmds: seq<Command>, oks: seq<bool>, ok: bool, w: World, w': World, d: string)
    requires |oks| < |cmds| && Fine(w, d, Clusters(cmds)) && DestroyKept(cmds, oks, w)
    requires Untouched(cmds[|oks|].On(), w, w') && (ok ==> Ended(cmds[|oks|], w, w', d))
    requires CleanText(cmds[|oks|].On())
    ensures DestroyKept(cmds, oks + [ok], w')
  {
    hide Trusted;
    hide Untouched;
    hide Marked;
    hide Teardown.NothingLeft;
    var cmd := cmds[|oks|];
    forall c | c in Clusters(cmds) && Destroyed(cmds, oks + [ok], c)
      ensures Teardown.NothingLeft(w', c)
    {
      var k: nat :|
        && k < |oks + [ok]| && (oks + [ok])[k] && cmds[k].Destroy? && cmds[k].On() == c
        && forall j: nat | k < j < |oks + [ok]| :: cmds[j].On() != c;
      if k < |oks| {
        assert oks[k] && cmd.On() != c;
        assert Destroyed(cmds, oks, c);
        OtherNothing(cmd.On(), c, w, w');
      }
    }
  }

  lemma FollowedMore(a: seq<World>, b: seq<World>, w0: World, cs: set<string>, d: string)
    requires Followed(a, w0, cs, d) && Followed(b, w0, cs, d)
    ensures Followed(a + b, w0, cs, d)
  {
    hide Fine;
    hide OnlyThese;
  }

  lemma InPlanMore(a: seq<World>, b: seq<World>, c: string, nodes: seq<NodeInfo>)
    requires AllInPlan(a, c, nodes) && AllInPlan(b, c, nodes)
    ensures AllInPlan(a + b, c, nodes)
  {
    hide InPlan;
  }

  /** The containers but helpers, the volumes and the files are what they were. */
  ghost predicate Undone(c: string, w0: World, w: World) {
    && (forall id | Owned(id) != Helper(c) :: At(w, id) == At(w0, id))
    && (forall v :: Vol(w, v) == Vol(w0, v))
    && (forall path :: FileAt(w, path) == FileAt(w0, path))
  }

  lemma NoHelperVolume(v: string)
    ensures !OwnedVolume(v).Helper?
  {
  }

  /** Teardown undoes bring-up: whatever was done to a cluster that was not there, once nothing
      of it is left the rest is as it was. */
  lemma TeardownUndoes(c: string, w0: World, w: World)
    requires OnlyThese({c}, w0, w) && Teardown.NothingLeft(w0, c) && Teardown.NothingLeft(w, c)
    ensures Undone(c, w0, w)
  {
    hide Owned;
    hide OwnedVolume;
    hide Under;
    forall v
      ensures Vol(w, v) == Vol(w0, v)
    {
      NoHelperVolume(v);
    }
  }

  /** The containers but helpers, the volumes and the files of the cluster are what they were. */
  ghost predicate BackTo(c: string, w0: World, w: World) {
    && (forall id | NodeCluster(Owned(id)) == Some(c) :: At(w, id) == At(w0, id))
    && (forall v | OwnedVolume(v).Of(c) :: Vol(w, v) == Vol(w0, v))
    && (forall path | Under(path, w0.root, c) :: FileAt(w, path) == FileAt(w0, path))
  }

  lemma NothingIsBack(c: string, w0: World, w: World)
    requires Teardown.NothingLeft(w0, c) && Teardown.NothingLeft(w, c) && w.root == w0.root
    ensures BackTo(c, w0, w)
  {
    hide Owned;
    hide OwnedVolume;
    hide Under;
    forall v | OwnedVolume(v).Of(c)
      ensures Vol(w, v) == Vol(w0, v)
    {
      NoHelperVolume(v);
    }
  }

  /** A run leaves the record of a cluster none of its commands names as faithful as it was. */
  lemma BystanderTrusted(cs: set<string>, c: string, d: string, w0: World, w: World)
    requires OnlyThese(cs, w0, w) && CleanText(c) && c !in cs && (forall b | b in cs :: CleanText(b)) && Recorded(w0, c, d)
    ensures SavedOf(w, c) == SavedOf(w0, c)
    ensures Trusted(w0, c, d) ==> Trusted(w, c, d)
  {
    hide InPlace;
    BystanderFile(cs, c, w0, w, "state.json");
    if SavedOf(w0, c).Present? && Trusted(w0, c, d) {
      var st := SavedOf(w0, c).state;
      BystanderFile(cs, c, w0, w, "etcd-tls" + "/" + CLIENT);
      forall n | n in st.nodes
        ensures InPlace(w, n, st, d)
      {
        BystanderInPlace(cs, c, d, w0, w, st, n);
      }
    }
  }

  lemma BystanderFile(cs: set<string>, c: string, w0: World, w: World, rest: string)
    requires OnlyThese(cs, w0, w) && CleanText(c) && c !in cs && (forall b | b in cs :: CleanText(b))
    ensures FileAt(w, InDir(w0.root, c, rest)) == FileAt(w0, InDir(w0.root, c, rest))
  {
    hide Owned;
    hide OwnedVolume;
    hide Under;
    var path := InDir(w0.root, c, rest);
    if FileAt(w, path) != FileAt(w0, path) {
      var b :| b in cs && Under(path, w0.root, b);
      DirsApart(w0.root, b, c, rest);
    }
  }

  lemma BystanderInPlace(cs: set<string>, c: string, d: string, w0: World, w: World, st: ClusterState, n: NodeInfo)
    requires OnlyThese(cs, w0, w) && CleanText(c) && c !in cs && Shape(st, c, d) && n in st.nodes && InPlace(w0, n, st, d)
    ensures InPlace(w, n, st, d)
  {
    hide Suits;
    hide MemberCommand;
    hide Owned;
    hide OwnedVolume;
    hide Under;
    hide Quorum;
    hide Fronted;
    NumberedOwner(n, c, d);
  }

  /** Each of the first commands that succeeded left what it promises; marks are the worlds
      between commands. */
  ghost predicate AllEnded(cmds: seq<Command>, oks: seq<bool>, marks: seq<World>, d: string) {
    && |oks| <= |cmds| && |marks| == |oks| + 1
    && forall k: nat | k < |oks| && oks[k] :: Ended(cmds[k], marks[k], marks[k + 1], d)
  }

  /** The nodes are numbered for their cluster and in plan at first, and every command on the
      cluster keeps their order. */
  ghost predicate AllOrderly(cmds: seq<Command>, w0: World, c: string, nodes: seq<NodeInfo>, d: string) {
    && CleanText(c) && AllNumbered(nodes, c, d) && InPlan(w0, c, nodes)
    && forall cmd | cmd in cmds && cmd.On() == c :: Orderly(cmd, nodes, d)
  }

  lemma OrderlyAt(cmds: seq<Command>, w0: World, c: string, nodes: seq<NodeInfo>, d: string, i: nat)
    requires AllOrderly(cmds, w0, c, nodes, d) && i < |cmds|
    ensures cmds[i].On() == c ==> Orderly(cmds[i], nodes, d)
    ensures CleanText(c) && AllNumbered(nodes, c, d) && InPlan(w0, c, nodes)
  {
    hide Orderly;
    assert cmds[i] in cmds;
  }

  /** The nodes are numbered for their cluster and on one bundle at first, and every command on the
      cluster restarts nodes or rotates their keys. */
  ghost predicate AllCalm(cmds: seq<Command>, w0: World, c: string, nodes: seq<NodeInfo>, d: string) {
    && CleanText(c) && AllNumbered(nodes, c, d) && OnOneBundle(w0, c, nodes)
    && forall cmd | cmd in cmds && cmd.On() == c :: Calm(cmd)
  }

  /** Every rotation so far of the cluster's certificates succeeded. */
  ghost predicate RotationsDone(cmds: seq<Command>, oks: seq<bool>, c: string) {
    |oks| <= |cmds| && forall k: nat | k < |oks| && cmds[k].RotateCerts? && cmds[k].On() == c :: oks[k]
  }

  /** Then all that run are on one CA throughout, and the bundles are one. */
  ghost predicate CalmKept(cmds: seq<Command>, oks: seq<bool>, history: seq<World>, w0: World, w: World, c: string, nodes: seq<NodeInfo>, d: string) {
    AllCalm(cmds, w0, c, nodes, d) && RotationsDone(cmds, oks, c) ==> AllOneCA(history, nodes) && OnOneBundle(w, c, nodes)
  }

  lemma CalmFirst(cmds: seq<Command>, w0: World, c: string, nodes: seq<NodeInfo>, d: string)
    ensures CalmKept(cmds, [], [w0], w0, w0, c, nodes, d)
  {
    if AllCalm(cmds, w0, c, nodes, d) {
      Rotation.CoherentAgrees(w0, nodes, c);
    }
  }

  lemma CalmMore(p: Provisioner, cmds: seq<Command>, oks: seq<bool>, ok: bool, history: seq<World>, w0: World, c: string, nodes: seq<NodeInfo>)
    requires CalmKept(cmds, oks, history, w0, p.origin, c, nodes, p.domain) && |oks| < |cmds|
    requires p.Valid() && p.scope == cmds[|oks|].On() && CleanText(p.scope)
    requires Calm(cmds[|oks|]) && p.scope == c ==> CalmDone(p.trace, p.origin, p.world, c, nodes, ok || !cmds[|oks|].RotateCerts?)
    ensures CalmKept(cmds, oks + [ok], history + p.trace, w0, p.world, c, nodes, p.domain)
  {
    hide OnOneBundle;
    hide CalmDone;
    hide AllOneCA;
    hide Calm;
    if AllCalm(cmds, w0, c, nodes, p.domain) && RotationsDone(cmds, oks + [ok], c) {
      assert RotationsDone(cmds, oks, c) by {
        assert forall k: nat | k < |oks| :: (oks + [ok])[k] == oks[k];
      }
      assert cmds[|oks|] in cmds && (oks + [ok])[|oks|] == ok;
      StepCalm(p, c, nodes, ok || !cmds[|oks|].RotateCerts?);
      OneCAMore(history, p.trace, nodes);
    }
  }

  lemma ProperAt(cmds: seq<Command>, i: nat)
    requires i < |cmds| && forall cmd | cmd in cmds :: Proper(cmd)
    ensures Proper(cmds[i]) && CleanText(cmds[i].On()) && cmds[i].On() in Clusters(cmds)
  {
    assert cmds[i] in cmds;
  }

  /** How far a run has come. */
  ghost predicate Reached(cmds: seq<Command>, oks: seq<bool>, history: seq<World>, marks: seq<World>, w0: World, w: World, c: string, nodes: seq<NodeInfo>, d: string) {
    && history != [] && history[0] == w0 && history[|history| - 1] == w && marks != [] && marks[0] == w0 && marks[|marks| - 1] == w
    && Followed(history, w0, Clusters(cmds), d) && AllEnded(cmds, oks, marks, d)
    && (AllOrderly(cmds, w0, c, nodes, d) ==> AllInPlan(history, c, nodes))
    && TrustKept(cmds, oks, w0, w, d) && DestroyKept(cmds, oks, w)
    && CalmKept(cmds, oks, history, w0, w, c, nodes, d)
  }

  lemma ReachedFirst(cmds: seq<Command>, w0: World, c: string, nodes: seq<NodeInfo>, d: string)
    requires Fine(w0, d, Clusters(cmds))
    ensures Reached(cmds, [], [w0], [w0], w0, w0, c, nodes, d)
  {
    hide Fine;
    hide InPlan;
    hide Trusted;
    hide CalmKept;
    CalmFirst(cmds, w0, c, nodes, d);
  }

  lemma ReachedNow(cmds: seq<Command>, oks: seq<bool>, history: seq<World>, marks: seq<World>, w0: World, w: World, c: string, nodes: seq<NodeInfo>, d: string)
    requires Reached(cmds, oks, history, marks, w0, w, c, nodes, d)
    ensures Fine(w, d, Clusters(cmds)) && OnlyThese(Clusters(cmds), w0, w)
    ensures AllOrderly(cmds, w0, c, nodes, d) ==> InPlan(w, c, nodes)
  {
    hide Fine;
    hide OnlyThese;
    hide InPlan;
    assert history[|history| - 1] == w;
  }

  lemma ReachedMore(p: Provisioner, cmds: seq<Command>, oks: seq<bool>, history: seq<World>, marks: seq<World>, w0: World, c: string, nodes: seq<NodeInfo>, ok: bool)
    requires Reached(cmds, oks, history, marks, w0, p.origin, c, nodes, p.domain) && |oks| < |cmds|
    requires p.Valid() && p.scope == cmds[|oks|].On() && (forall cmd | cmd in cmds :: Proper(cmd))
    requires Orderly(cmds[|oks|], nodes, p.domain) && p.scope == c ==> AlwaysInPlan(p.trace, p.origin, c, nodes)
    requires Calm(cmds[|oks|]) && p.scope == c ==> CalmDone(p.trace, p.origin, p.world, c, nodes, ok || !cmds[|oks|].RotateCerts?)
    requires ok ==> Ended(cmds[|oks|], p.origin, p.world, p.domain)
    ensures Reached(cmds, oks + [ok], history + p.trace, marks + [p.world], w0, p.world, c, nodes, p.domain)
  {
    hide Fine;
    hide OnlyThese;
    hide InPlan;
    hide Orderly;
    hide AlwaysInPlan;
    hide Ended;
    hide AllInPlan;
    hide Followed;
    hide AllOrderly;
    hide TrustKept;
    hide DestroyKept;
    hide Untouched;
    hide Calm;
    hide CalmDone;
    hide CalmKept;
    ProperAt(cmds, |oks|);
    ReachedNow(cmds, oks, history, marks, w0, p.origin, c, nodes, p.domain);
    StepFollows(p, w0, Clusters(cmds));
    FollowedMore(history, p.trace, w0, Clusters(cmds), p.domain);
    if AllOrderly(cmds, w0, c, nodes, p.domain) {
      OrderlyAt(cmds, w0, c, nodes, p.domain, |oks|);
      StepInPlan(p, c, nodes);
      InPlanMore(history, p.trace, c, nodes);
    }
    p.Now();
    StepTrusted(cmds, oks, ok, w0, p.origin, p.world, p.domain);
    StepDestroyed(cmds, oks, ok, p.origin, p.world, p.domain);
    CalmMore(p, cmds, oks, ok, history, w0, c, nodes);
    MarksMore(cmds, oks, marks, ok, p.origin, p.world, p.domain);
  }

  lemma MarksMore(cmds: seq<Command>, oks: seq<bool>, marks: seq<World>, ok: bool, w: World, w': World, d: string)
    requires AllEnded(cmds, oks, marks, d) && |oks| < |cmds| && marks[|marks| - 1] == w
    requires ok ==> Ended(cmds[|oks|], w, w', d)
    ensures AllEnded(cmds, oks + [ok], marks + [w'], d)
  {
    hide Ended;
    forall k: nat | k < |oks + [ok]| && (oks + [ok])[k]
      ensures Ended(cmds[k], (marks + [w'])[k], (marks + [w'])[k + 1], d)
    {
      if k < |oks| {
        assert oks[k] && (marks + [w'])[k] == marks[k] && (marks + [w'])[k + 1] == marks[k + 1];
      }
    }
  }

  lemma FineOne(w: World, d: string, cs: set<string>, c: string)
    requires Fine(w, d, cs) && c in cs
    ensures Fine(w, d, {c})
  {
  }

  /** A run of commands, any of which may fail anywhere. history is every world it passes
      through, marks those between commands. Each is fine, and differs from the first only in
      what belongs to the clusters the commands name. A record that could be trusted still can
      if every command on its cluster succeeded. If a cluster's own commands are orderly over a
      plan, whatever comes of them, what runs of the plan always has what it depends on. A
      cluster that was not there at first, and whose last command is a destroy that succeeds,
      is back to what it was; if no other cluster is named, so is everything else. If a cluster
      starts out on one CA and its own commands are starts, stops and rotations of certificates, and
      the rotations succeed, all that run of it are on one CA throughout. */
  method Run(p: Provisioner, cmds: seq<Command>, ghost c: string, ghost nodes: seq<NodeInfo>)
    returns (oks: seq<bool>, ghost history: seq<World>, ghost marks: seq<World>)
    requires Fine(p.world, p.domain, Clusters(cmds)) && forall cmd | cmd in cmds :: Proper(cmd)
    modifies p
    ensures |oks| == |cmds| && Reached(cmds, oks, history, marks, old(p.world), p.world, c, nodes, p.domain)
    ensures forall b | b in Clusters(cmds) && Destroyed(cmds, oks, b) && Teardown.NothingLeft(old(p.world), b) ::
              BackTo(b, old(p.world), p.world) && (Clusters(cmds) == {b} ==> Undone(b, old(p.world), p.world))
  {
    hide *;
    ghost var w0 := p.world;
    oks, history, marks := [], [w0], [w0];
    ReachedFirst(cmds, w0, c, nodes, p.domain);
    for i := 0 to |cmds|
      invariant |oks| == i && Reached(cmds, oks, history, marks, w0, p.world, c, nodes, p.domain)
    {
      ReachedNow(cmds, oks, history, marks, w0, p.world, c, nodes, p.domain);
      ProperAt(cmds, i);
      FineOne(p.world, p.domain, Clusters(cmds), cmds[i].On());
      var ok := Execute(p, cmds[i], nodes);
      ReachedMore(p, cmds, oks, history, marks, w0, c, nodes, ok);
      oks, history, marks := oks + [ok], history + p.trace, marks + [p.world];
    }
    forall b | b in Clusters(cmds) && Destroyed(cmds, oks, b) && Teardown.NothingLeft(w0, b)
      ensures BackTo(b, w0, p.world) && (Clusters(cmds) == {b} ==> Undone(b, w0, p.world))
    {
      LastDestroys(cmds, oks, history, marks, w0, p.world, c, nodes, p.domain, b);
    }
  }

  lemma LastDestroys(cmds: seq<Command>, oks: seq<bool>, history: seq<World>, marks: seq<World>, w0: World, w: World, c: string, nodes: seq<NodeInfo>, d: string,
                     b: string)
    requires Reached(cmds, oks, history, marks, w0, w, c, nodes, d)
    requires b in Clusters(cmds) && Destroyed(cmds, oks, b) && Teardown.NothingLeft(w0, b)
    ensures BackTo(b, w0, w) && (Clusters(cmds) == {b} ==> Undone(b, w0, w))
  {
    hide Fine;
    hide InPlan;
    hide Trusted;
    hide Undone;
    hide BackTo;
    hide Clusters;
    hide Destroyed;
    hide Teardown.NothingLeft;
    ReachedNow(cmds, oks, history, marks, w0, w, c, nodes, d);
    NothingIsBack(b, w0, w);
    if Clusters(cmds) == {b} {
      TeardownUndoes(b, w0, w);
    }
  }
}
