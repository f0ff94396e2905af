/** Whole-cluster stop and start in dependency order (provider/apple/lifecycle.go). */
module Lifecycle {
  import opened Types
  import opened Names
  import opened Ordering
  import opened Records
  import opened World
  import opened Runtime

  /** A running node has everything it depends on running: agents the load balancer, that the
      servers, those the datastore. */
  ghost predicate Closed(w: World, nodes: seq<NodeInfo>) {
    forall a, b | a in nodes && b in nodes && StopRank(a.role) < StopRank(b.role) && Up(w, a.id) :: Up(w, b.id)
  }

  /** A container apart from whether and how it runs. */
  function Recipe(a: Option<Container>): Option<Container> {
    match a
    case None => None
    case Some(b) => Some(b.(running := false, ready := false, did := {}, addr := "", booted := 0, ca := None, config := None))
  }

  /** The same containers, volumes and files, running or not. */
  ghost predicate OnlyRunning(w0: World, w: World) {
    && w.volumes == w0.volumes && w.files == w0.files && w.answered == w0.answered
    && forall id :: Recipe(At(w, id)) == Recipe(At(w0, id))
  }

  /** What stop and start keep at every point. */
  ghost predicate InOrder(w0: World, w: World, nodes: seq<NodeInfo>) {
    OnlyRunning(w0, w) && (Closed(w0, nodes) ==> Closed(w, nodes))
  }

  /** What runs is as it was. */
  ghost predicate Sunk(w0: World, w: World) {
    forall id | Up(w, id) :: At(w, id) == At(w0, id)
  }

  /** What stop keeps at every point. */
  ghost predicate Stopping(w0: World, w: World, nodes: seq<NodeInfo>) {
    InOrder(w0, w, nodes) && Sunk(w0, w)
  }

  ghost function StoppingFrom(w0: World, nodes: seq<NodeInfo>): World -> bool {
    w => Stopping(w0, w, nodes)
  }

  /** What ran still runs, on the keys it read when it booted; what runs now and did not has read
      the keys that were on disk. */
  ghost predicate Risen(w0: World, w: World) {
    forall id | At(w0, id).Some? ::
      && At(w, id).Some?
      && (Up(w0, id) ==> Up(w, id) && At(w, id).value.ca == At(w0, id).value.ca)
      && (!Up(w0, id) && Up(w, id) ==> At(w, id).value.ca == Loaded(w0, At(w0, id).value.launch.volumes))
  }

  /** What start keeps at every point. */
  ghost predicate Starting(w0: World, w: World, nodes: seq<NodeInfo>) {
    InOrder(w0, w, nodes) && Risen(w0, w)
  }

  ghost function StartingFrom(w0: World, nodes: seq<NodeInfo>): World -> bool {
    w => Starting(w0, w, nodes)
  }

  /** The record, if it can be read, is of these nodes, at any addresses. */
  ghost predicate OnRecord(w: World, c: string, nodes: seq<NodeInfo>) {
    SavedOf(w, c).Present? ==> Readdressed(nodes, SavedOf(w, c).state.nodes)
  }

  lemma SameRecord(w: World, w': World, c: string, nodes: seq<NodeInfo>)
    requires w'.files == w.files && w'.root == w.root
    ensures OnRecord(w', c, nodes) <==> OnRecord(w, c, nodes)
  {
  }

  lemma RecordWritten(w: World, c: string, nodes: seq<NodeInfo>, path: string, file: File)
    requires OnRecord(w, c, nodes) && (file.Record? ==> Readdressed(nodes, file.state.nodes))
    ensures OnRecord(Written(w, path, file), c, nodes)
  {
    assert forall x :: FileAt(Written(w, path, file), x) == if x == path then Some(file) else FileAt(w, x);
  }

  ghost predicate UniqueIds(nodes: seq<NodeInfo>) {
    forall a, b | a in nodes && b in nodes && a.id == b.id :: a == b
  }

  lemma UniqueByName(nodes: seq<NodeInfo>, c: string, d: string)
    requires CleanText(c) && AllNumbered(nodes, c, d) && Distinct(nodes)
    ensures UniqueIds(nodes)
  {
    forall a, b | a in nodes && b in nodes && a.id == b.id
      ensures a == b
    {
      var i :| 0 <= i < |nodes| && nodes[i] == a;
      var j :| 0 <= j < |nodes| && nodes[j] == b;
      if i != j {
        DistinctIds(nodes, c, d, i, j);
      }
    }
  }

  lemma ShapeUnique(st: ClusterState, c: string, d: string)
    requires Shape(st, c, d)
    ensures UniqueIds(st.nodes)
  {
    UniqueByName(st.nodes, c, d);
  }

  lemma OrderedMembers(nodes: seq<NodeInfo>, reversed: bool)
    ensures forall n :: n in OrderedByRole(nodes, reversed) <==> n in nodes
    ensures Sorted(OrderedByRole(nodes, reversed), reversed)
  {
    OrderedByRoleSorts(nodes, reversed);
    forall n
      ensures n in OrderedByRole(nodes, reversed) <==> n in nodes
    {
      assert n in multiset(OrderedByRole(nodes, reversed)) <==> n in multiset(nodes);
    }
  }

  lemma DownAfterStop(w: World, id: string)
    ensures forall x :: Up(Stopped(w, id), x) <==> Up(w, x) && x != id
  {
  }

  lemma UpAfterStart(w: World, id: string)
    ensures forall x :: Up(Started(w, id), x) <==> Up(w, x) || (x == id && At(w, id).Some?)
    ensures forall x :: Up(w, x) ==> At(Started(w, id), x) == At(w, x)
  {
  }

  lemma Before(nodes: seq<NodeInfo>, reversed: bool, i: nat, a: NodeInfo)
    requires i < |OrderedByRole(nodes, reversed)| && a in nodes && Less(a, OrderedByRole(nodes, reversed)[i], reversed)
    ensures exists k: nat :: k < i && OrderedByRole(nodes, reversed)[k] == a
  {
    var ordered := OrderedByRole(nodes, reversed);
    OrderedMembers(nodes, reversed);
    assert a in ordered;
    var k: nat :| k < |ordered| && ordered[k] == a;
    assert k > i ==> Sorted(ordered, reversed);
  }

  ghost predicate AllDown(w: World, nodes: seq<NodeInfo>, i: nat)
    requires i <= |nodes|
  {
    forall k: nat | k < i :: !Up(w, nodes[k].id)
  }

  /** The node runs, set up for forwarding if it is a k3s node. */
  ghost predicate Serving(w: World, n: NodeInfo) {
    Up(w, n.id) && (n.role.IsK3s() ==> Armed(w, n.id))
  }

  ghost predicate AllServing(w: World, nodes: seq<NodeInfo>, i: nat)
    requires i <= |nodes|
  {
    forall k: nat | k < i :: Serving(w, nodes[k])
  }

  lemma StopClosed(w: World, nodes: seq<NodeInfo>, i: nat)
    requires Closed(w, nodes) && UniqueIds(nodes) && i < |StopOrder(nodes)|
    requires AllDown(w, StopOrder(nodes), i)
    ensures Closed(Stopped(w, StopOrder(nodes)[i].id), nodes)
  {
    var stopped := StopOrder(nodes)[i];
    OrderedMembers(nodes, false);
    assert stopped in nodes;
    DownAfterStop(w, stopped.id);
    forall a, b | a in nodes && b in nodes && StopRank(a.role) < StopRank(b.role) && Up(w, a.id)
      ensures Up(w, b.id) && b.id != stopped.id
    {
      if b == stopped {
        Before(nodes, false, i, a);
      }
    }
  }

  lemma StartClosed(w: World, nodes: seq<NodeInfo>, i: nat)
    requires Closed(w, nodes) && UniqueIds(nodes) && i < |StartOrder(nodes)|
    requires AllServing(w, StartOrder(nodes), i)
    ensures Closed(Started(w, StartOrder(nodes)[i].id), nodes)
  {
    var started := StartOrder(nodes)[i];
    OrderedMembers(nodes, true);
    assert started in nodes;
    UpAfterStart(w, started.id);
    forall b | b in nodes && StopRank(started.role) < StopRank(b.role)
      ensures Up(w, b.id)
    {
      Before(nodes, true, i, b);
    }
  }

  lemma RanClosed(w: World, nodes: seq<NodeInfo>, id: string, cmd: GuestCommand)
    requires Closed(w, nodes)
    ensures Closed(Ran(w, id, cmd), nodes)
  {
    assert forall x :: Up(Ran(w, id, cmd), x) == Up(w, x);
  }

  // ---------------------------------------------------------------------------------------
  // The stop and start loops
  // ---------------------------------------------------------------------------------------

  ghost predicate Members(nodes: seq<NodeInfo>, c: string, d: string) {
    ValidName(c) && AllNumbered(nodes, c, d) && UniqueIds(nodes)
  }

  /** Stopping the nodes in stop order cannot break p. */
  ghost predicate StopSafe(p: World -> bool, nodes: seq<NodeInfo>) {
    forall w, i: nat {:trigger Stopped(w, OrderedByRole(nodes, false)[i].id)} ::
      i < |OrderedByRole(nodes, false)| && p(w) && AllDown(w, OrderedByRole(nodes, false), i)
      ==> p(Stopped(w, OrderedByRole(nodes, false)[i].id))
  }

  /** Files, volumes and the containers of the nodes in skip are as they were. */
  ghost predicate SkipsKept(w0: World, w: World, nodes: seq<NodeInfo>, skip: set<Role>) {
    && w.files == w0.files && w.volumes == w0.volumes && w.root == w0.root && w.answered == w0.answered
    && forall n | n in nodes && n.role in skip :: At(w, n.id) == At(w0, n.id)
  }

  /** From w0 on, starting the nodes outside skip in start order cannot break p. */
  ghost predicate StartSafe(p: World -> bool, w0: World, nodes: seq<NodeInfo>, skip: set<Role>) {
    && (forall w, i: nat {:trigger Started(w, OrderedByRole(nodes, true)[i].id)} ::
         i < |OrderedByRole(nodes, true)| && OrderedByRole(nodes, true)[i].role !in skip
         && p(w) && SkipsKept(w0, w, nodes, skip) && AllServing(w, OrderedByRole(nodes, true), i)
         ==> p(Started(w, OrderedByRole(nodes, true)[i].id)))
    && (forall n | n in nodes && n.role !in skip :: Steady(p, n.id))
  }

  /** Containers may have been stopped; nothing else differs. */
  ghost predicate OnlyStopped(w0: World, w: World) {
    && w.files == w0.files && w.volumes == w0.volumes && w.root == w0.root && w.answered == w0.answered && w.clock == w0.clock
    && (forall id :: At(w, id).Some? == At(w0, id).Some?)
    && (forall id :: At(w, id).Some? && At(w, id) != At(w0, id) ==>
          At(w, id).value == At(w0, id).value.(running := false, ready := false))
  }

  lemma OnlyStoppedMore(w0: World, w: World, id: string)
    requires OnlyStopped(w0, w)
    ensures OnlyStopped(w0, Stopped(w, id))
  {
    var w' := Stopped(w, id);
    assert forall x :: x != id ==> At(w', x) == At(w, x);
  }

  lemma MayStop(p: Provisioner, nodes: seq<NodeInfo>, i: nat)
    requires p.Valid() && Members(nodes, p.scope, p.domain) && StopSafe(p.watch, nodes)
    requires i < |OrderedByRole(nodes, false)| && AllDown(p.world, OrderedByRole(nodes, false), i)
    ensures
      var id := OrderedByRole(nodes, false)[i].id;
      && Owned(id).Of(p.scope) && p.watch(Stopped(p.world, id))
      && AllDown(p.world, OrderedByRole(nodes, false), i) && AllDown(Stopped(p.world, id), OrderedByRole(nodes, false), i + 1)
  {
    p.Now();
    OrderedMembers(nodes, false);
    var node := StopOrder(nodes)[i];
    assert node in nodes;
    NumberedOwner(node, p.scope, p.domain);
    DownAfterStop(p.world, node.id);
  }

  /** The stop loop of stop, restore and certificate rotation. */
  method StopAll(p: Provisioner, nodes: seq<NodeInfo>) returns (r: Outcome)
    requires p.Valid() && Members(nodes, p.scope, p.domain) && StopSafe(p.watch, nodes)
    modifies p`world, p`trace
    ensures p.Valid() && OnlyStopped(old(p.world), p.world)
    ensures r.Pass? ==> forall n | n in nodes :: !Up(p.world, n.id)
  {
    var ordered := OrderByRole(nodes, false);
    ghost var w0 := p.world;
    assert AllDown(p.world, ordered, 0) && OnlyStopped(w0, w0);
    hide *;
    for i := 0 to |ordered|
      invariant p.Valid() && AllDown(p.world, ordered, i) && OnlyStopped(w0, p.world)
    {
      MayStop(p, nodes, i);
      OnlyStoppedMore(w0, p.world, ordered[i].id);
      r := p.Stop(ordered[i].id);
      if r.Fail? {
        return;
      }
    }
    AllAreDown(p.world, nodes);
    r := Pass;
  }

  lemma AllAreDown(w: World, nodes: seq<NodeInfo>)
    requires AllDown(w, OrderedByRole(nodes, false), |OrderedByRole(nodes, false)|)
    ensures forall n | n in nodes :: !Up(w, n.id)
  {
    OrderedMembers(nodes, false);
    forall n | n in nodes
      ensures !Up(w, n.id)
    {
      assert n in OrderedByRole(nodes, false);
    }
  }

  lemma AllAreServing(w: World, nodes: seq<NodeInfo>)
    requires AllServing(w, OrderedByRole(nodes, true), |OrderedByRole(nodes, true)|)
    ensures forall n | n in nodes :: Serving(w, n)
  {
    OrderedMembers(nodes, true);
    forall n | n in nodes
      ensures Serving(w, n)
    {
      assert n in OrderedByRole(nodes, true);
    }
  }

  ghost predicate StartLoop(p: Provisioner, w0: World, nodes: seq<NodeInfo>, skip: set<Role>)
    reads p`watch, p`scope
  {
    && Members(nodes, p.scope, p.domain)
    && StartSafe(p.watch, w0, nodes, skip)
  }

  ghost predicate StartedUpTo(w0: World, w: World, nodes: seq<NodeInfo>, skip: set<Role>, i: nat) {
    && i <= |OrderedByRole(nodes, true)|
    && AllServing(w, OrderedByRole(nodes, true), i)
    && SkipsKept(w0, w, nodes, skip)
    && forall n | n in nodes && n.role in skip :: Serving(w, n)
  }

  lemma MayStart(p: Provisioner, nodes: seq<NodeInfo>, skip: set<Role>, i: nat, w0: World)
    requires p.Valid() && StartLoop(p, w0, nodes, skip) && StartedUpTo(w0, p.world, nodes, skip, i)
    requires i < |OrderedByRole(nodes, true)| && OrderedByRole(nodes, true)[i].role !in skip
    ensures
      var n := OrderedByRole(nodes, true)[i];
      && Owned(n.id) == Node(p.scope, n.role) && p.watch(Started(p.world, n.id)) && Steady(p.watch, n.id)
      && StartedUpTo(w0, Started(p.world, n.id), nodes, skip, i)
      && (At(p.world, n.id).Some? ==> Up(Started(p.world, n.id), n.id))
  {
    var ordered := OrderedByRole(nodes, true);
    p.Now();
    OrderedMembers(nodes, true);
    var node := ordered[i];
    assert node in nodes;
    NumberedOwner(node, p.scope, p.domain);
    UpAfterStart(p.world, node.id);
    assert forall n | n in nodes && n.role in skip :: Up(p.world, n.id);
    assert forall k: nat | k < i :: Up(p.world, ordered[k].id);
  }

  lemma RanUpTo(w0: World, w1: World, w: World, nodes: seq<NodeInfo>, skip: set<Role>, i: nat)
    requires UniqueIds(nodes) && StartedUpTo(w0, w1, nodes, skip, i)
    requires i < |OrderedByRole(nodes, true)| && OrderedByRole(nodes, true)[i].role !in skip
    requires OnlyRan(w1, w, OrderedByRole(nodes, true)[i].id)
    ensures SkipsKept(w0, w, nodes, skip)
    ensures Up(w, OrderedByRole(nodes, true)[i].id) && Armed(w, OrderedByRole(nodes, true)[i].id) ==> StartedUpTo(w0, w, nodes, skip, i + 1)
  {
    var ordered := OrderedByRole(nodes, true);
    OrderedMembers(nodes, true);
    assert ordered[i] in nodes;
    var id := ordered[i].id;
    assert forall x :: x != id ==> At(w, x) == At(w1, x);
    forall n | n in nodes && n.role in skip
      ensures At(w, n.id) == At(w1, n.id)
    {
    }
  }

  lemma OneMoreUp(w0: World, w: World, nodes: seq<NodeInfo>, skip: set<Role>, i: nat)
    requires StartedUpTo(w0, w, nodes, skip, i) && i < |OrderedByRole(nodes, true)|
    requires Serving(w, OrderedByRole(nodes, true)[i])
    ensures StartedUpTo(w0, w, nodes, skip, i + 1)
  {
  }

  lemma SkippedServes(w0: World, w: World, nodes: seq<NodeInfo>, skip: set<Role>, i: nat)
    requires StartedUpTo(w0, w, nodes, skip, i) && i < |OrderedByRole(nodes, true)|
    requires OrderedByRole(nodes, true)[i].role in skip
    ensures StartedUpTo(w0, w, nodes, skip, i + 1)
  {
    OrderedMembers(nodes, true);
    assert OrderedByRole(nodes, true)[i] in nodes;
  }

  lemma Finished(w0: World, w: World, nodes: seq<NodeInfo>, skip: set<Role>)
    requires StartedUpTo(w0, w, nodes, skip, |OrderedByRole(nodes, true)|)
    ensures forall n | n in nodes :: Serving(w, n)
    ensures SkipsKept(w0, w, nodes, skip)
  {
    AllAreServing(w, nodes);
  }

  lemma SkipsOf(w0: World, w: World, nodes: seq<NodeInfo>, skip: set<Role>, i: nat)
    requires StartedUpTo(w0, w, nodes, skip, i)
    ensures SkipsKept(w0, w, nodes, skip)
  {
  }

  /** One node of the start loop: start it, and set a k3s node up for forwarding once it has
      an address. */
  method StartNode(p: Provisioner, nodes: seq<NodeInfo>, skip: set<Role>, i: nat, node: NodeInfo, ghost w0: World) returns (r: Result<Addr>)
    requires p.Valid() && StartLoop(p, w0, nodes, skip) && StartedUpTo(w0, p.world, nodes, skip, i)
    requires i < |OrderedByRole(nodes, true)| && node == OrderedByRole(nodes, true)[i] && node.role !in skip
    modifies p`world, p`trace
    ensures p.Valid() && SkipsKept(w0, p.world, nodes, skip)
    ensures r.Ok? ==> StartedUpTo(w0, p.world, nodes, skip, i + 1)
  {
    ghost var w := p.world;
    MayStart(p, nodes, skip, i, w0);
    SkipsOf(w0, w, nodes, skip, i);
    SkipsOf(w0, Started(w, node.id), nodes, skip, i);
    var started := p.Start(node.id);
    if started.Fail? {
      return Err(started.error);
    }
    if !node.role.IsK3s() {
      OneMoreUp(w0, p.world, nodes, skip, i);
      return Ok("");
    }
    var addr :- p.InspectIPv4(node.id);
    ghost var w1 := p.world;
    p.Now();
    var armed := p.EnableIPForward(node.id, p.watch);
    RanUpTo(w0, w1, p.world, nodes, skip, i);
    if armed.Fail? {
      return Err(armed.error);
    }
    r := Ok(addr);
  }

  lemma Readdress(nodes: seq<NodeInfo>, current: seq<NodeInfo>, i: nat, addr: Addr)
    requires UniqueIds(nodes) && Readdressed(nodes, current) && i < |OrderedByRole(nodes, true)|
    ensures Readdressed(nodes, ReplaceNode(current, OrderedByRole(nodes, true)[i].(ips := [addr])))
  {
    var node := OrderedByRole(nodes, true)[i];
    OrderedMembers(nodes, true);
    assert node in nodes;
    ReaddressOne(nodes, current, node, [addr]);
  }

  /** The start loop of start, restore and certificate rotation: nodes of the roles in skip are
      running already. The record comes back with the addresses the k3s containers now have. */
  method StartRest(p: Provisioner, nodes: seq<NodeInfo>, skip: set<Role>, recorded: seq<NodeInfo>) returns (r: Result<seq<NodeInfo>>)
    requires p.Valid() && StartLoop(p, p.world, nodes, skip)
    requires forall n | n in nodes && n.role in skip :: Serving(p.world, n)
    requires Readdressed(nodes, recorded)
    modifies p`world, p`trace
    ensures p.Valid() && SkipsKept(old(p.world), p.world, nodes, skip)
    ensures r.Ok? ==> Readdressed(nodes, r.value) && forall n | n in nodes :: Serving(p.world, n)
  {
    var ordered := OrderByRole(nodes, true);
    var current := recorded;
    ghost var w0 := p.world;
    assert StartedUpTo(w0, w0, nodes, skip, 0);
    hide *;
    for i := 0 to |ordered|
      invariant p.Valid() && StartedUpTo(w0, p.world, nodes, skip, i) && Readdressed(nodes, current)
    {
      if ordered[i].role in skip {
        SkippedServes(w0, p.world, nodes, skip, i);
        continue;
      }
      var addr := StartNode(p, nodes, skip, i, ordered[i], w0);
      if addr.Err? {
        return Err(addr.error);
      }
      if ordered[i].role.IsK3s() {
        Readdress(nodes, current, i, addr.value);
        current := ReplaceNode(current, ordered[i].(ips := [addr.value]));
      }
    }
    Finished(w0, p.world, nodes, skip);
    r := Ok(current);
  }

  /** Recording a new address of one of the nodes. */
  lemma ReaddressOne(nodes: seq<NodeInfo>, current: seq<NodeInfo>, node: NodeInfo, ips: seq<Addr>)
    requires UniqueIds(nodes) && Readdressed(nodes, current) && node in nodes
    ensures Readdressed(nodes, ReplaceNode(current, node.(ips := ips)))
  {
    forall m | m in current && m.id == node.id
      ensures Bare(m) == Bare(node)
    {
      var k :| 0 <= k < |current| && current[k] == m;
      assert nodes[k] in nodes;
      SameNode(nodes[k], m);
    }
    ReplaceReaddresses(current, node, ips);
    ReaddressedTrans(nodes, current, ReplaceNode(current, node.(ips := ips)));
  }

  // ---------------------------------------------------------------------------------------
  // Stop and Start
  // ---------------------------------------------------------------------------------------

  lemma StoppingStopSafe(w0: World, nodes: seq<NodeInfo>)
    requires UniqueIds(nodes)
    ensures StopSafe(StoppingFrom(w0, nodes), nodes)
  {
    var p := StoppingFrom(w0, nodes);
    forall w, i: nat {:trigger Stopped(w, OrderedByRole(nodes, false)[i].id)} |
      i < |OrderedByRole(nodes, false)| && p(w) && AllDown(w, OrderedByRole(nodes, false), i)
      ensures p(Stopped(w, OrderedByRole(nodes, false)[i].id))
    {
      var id := OrderedByRole(nodes, false)[i].id;
      if Closed(w0, nodes) {
        StopClosed(w, nodes, i);
      }
      OnlyRunningSteps(w0, w, id, Remount);
      assert forall x :: Up(Stopped(w, id), x) ==> Up(w, x) && At(Stopped(w, id), x) == At(w, x);
    }
  }

  lemma OnlyRunningSteps(w0: World, w: World, id: string, cmd: GuestCommand)
    requires OnlyRunning(w0, w)
    ensures OnlyRunning(w0, Stopped(w, id)) && OnlyRunning(w0, Started(w, id)) && OnlyRunning(w0, Ran(w, id, cmd))
  {
    hide Recipe;
    SameRecipe(w, id, cmd);
    OnlyRunningStep(w0, w, Stopped(w, id), id);
    OnlyRunningStep(w0, w, Started(w, id), id);
    OnlyRunningStep(w0, w, Ran(w, id, cmd), id);
  }

  lemma SameRecipe(w: World, id: string, cmd: GuestCommand)
    ensures Recipe(At(Stopped(w, id), id)) == Recipe(At(w, id))
    ensures Recipe(At(Started(w, id), id)) == Recipe(At(w, id))
    ensures Recipe(At(Ran(w, id, cmd), id)) == Recipe(At(w, id))
  {
  }

  lemma OnlyRunningStep(w0: World, w: World, w': World, id: string)
    requires OnlyRunning(w0, w) && w'.volumes == w.volumes && w'.files == w.files && w'.answered == w.answered
    requires (forall x :: x != id ==> At(w', x) == At(w, x)) && Recipe(At(w', id)) == Recipe(At(w, id))
    ensures OnlyRunning(w0, w')
  {
    hide Recipe;
  }

  lemma RisenStep(w0: World, w: World, w': World, id: string)
    requires Risen(w0, w) && OnlyRunning(w0, w)
    requires forall x :: x != id ==> At(w', x) == At(w, x)
    requires At(w, id).Some? ==>
      && At(w', id).Some?
      && (Up(w, id) ==> Up(w', id) && At(w', id).value.ca == At(w, id).value.ca)
      && (!Up(w, id) && Up(w', id) ==> At(w', id).value.ca == Loaded(w, At(w, id).value.launch.volumes))
    ensures Risen(w0, w')
  {
    assert Recipe(At(w, id)) == Recipe(At(w0, id));
    assert At(w0, id).Some? ==> Loaded(w, At(w, id).value.launch.volumes) == Loaded(w0, At(w0, id).value.launch.volumes);
  }

  lemma RisenSteps(w0: World, w: World, id: string, cmd: GuestCommand)
    requires Risen(w0, w) && OnlyRunning(w0, w)
    ensures Risen(w0, Started(w, id)) && Risen(w0, Ran(w, id, cmd))
  {
    hide Risen;
    hide OnlyRunning;
    OneStep(w, id, cmd);
    RisenStep(w0, w, Started(w, id), id);
    RisenStep(w0, w, Ran(w, id, cmd), id);
  }

  lemma OneStep(w: World, id: string, cmd: GuestCommand)
    ensures forall x :: x != id ==> At(Started(w, id), x) == At(w, x) && At(Ran(w, id, cmd), x) == At(w, x)
    ensures At(w, id).Some? ==> At(Started(w, id), id).Some? && At(Ran(w, id, cmd), id).Some?
    ensures Up(w, id) ==> At(Started(w, id), id) == At(w, id) && Up(Ran(w, id, cmd), id) && At(Ran(w, id, cmd), id).value.ca == At(w, id).value.ca
    ensures !Up(w, id) && At(w, id).Some? ==>
      !Up(Ran(w, id, cmd), id) && At(Started(w, id), id).value.ca == Loaded(w, At(w, id).value.launch.volumes)
  {
    hide Loaded;
  }

  lemma StartingStartSafe(w0: World, nodes: seq<NodeInfo>)
    requires UniqueIds(nodes)
    ensures StartSafe(StartingFrom(w0, nodes), w0, nodes, {})
  {
    hide OnlyRunning;
    hide Risen;
    var p := StartingFrom(w0, nodes);
    forall w, i: nat {:trigger Started(w, OrderedByRole(nodes, true)[i].id)} |
      i < |OrderedByRole(nodes, true)| && p(w) && AllServing(w, OrderedByRole(nodes, true), i)
      ensures p(Started(w, OrderedByRole(nodes, true)[i].id))
    {
      if Closed(w0, nodes) {
        StartClosed(w, nodes, i);
      }
      OnlyRunningSteps(w0, w, OrderedByRole(nodes, true)[i].id, Remount);
      RisenSteps(w0, w, OrderedByRole(nodes, true)[i].id, Remount);
    }
    forall n | n in nodes
      ensures Steady(p, n.id)
    {
      forall w, cmd {:trigger Ran(w, n.id, cmd)} | p(w)
        ensures p(Ran(w, n.id, cmd))
      {
        if Closed(w0, nodes) {
          RanClosed(w, nodes, n.id, cmd);
        }
        OnlyRunningSteps(w0, w, n.id, cmd);
        RisenSteps(w0, w, n.id, cmd);
      }
    }
  }

  lemma NothingYet(w: World, nodes: seq<NodeInfo>)
    ensures Starting(w, w, nodes) && Stopping(w, w, nodes)
  {
  }

  lemma EveryStartPoint(p: Provisioner, w0: World, nodes: seq<NodeInfo>)
    requires p.Valid() && p.watch == StartingFrom(w0, nodes)
    ensures forall k: nat | k < |p.trace| :: Starting(w0, p.trace[k], nodes)
  {
    forall k: nat | k < |p.trace|
      ensures Starting(w0, p.trace[k], nodes)
    {
      p.Then(k);
    }
  }

  lemma EveryStopPoint(p: Provisioner, w0: World, nodes: seq<NodeInfo>)
    requires p.Valid() && p.watch == StoppingFrom(w0, nodes)
    ensures forall k: nat | k < |p.trace| :: Stopping(w0, p.trace[k], nodes)
  {
    forall k: nat | k < |p.trace|
      ensures Stopping(w0, p.trace[k], nodes)
    {
      p.Then(k);
    }
  }

  /** Loading the record at the start of an operation. */
  method Open(p: Provisioner, c: string) returns (r: Result<ClusterState>)
    requires Tidy(p.world) && Lawful(p.world, c, p.domain)
    modifies p
    ensures p.Valid() && p.scope == c && p.origin == p.world == old(p.world) && p.trace == [p.world]
    ensures r.Ok? ==> SavedOf(p.world, c) == Present(r.value) && Members(r.value.nodes, c, p.domain)
  {
    p.Begin(c, Anything());
    r := p.LoadState(c);
    if r.Ok? {
      ShapeUnique(r.value, c, p.domain);
    }
  }

  /** Stop. */
  method Stop(p: Provisioner, c: string) returns (r: Outcome)
    requires Tidy(p.world) && Lawful(p.world, c, p.domain)
    modifies p
    ensures p.Valid() && p.scope == c && p.origin == old(p.world)
    ensures SavedOf(old(p.world), c).Present? ==>
              forall k: nat | k < |p.trace| :: Stopping(old(p.world), p.trace[k], SavedOf(old(p.world), c).state.nodes)
    ensures !SavedOf(old(p.world), c).Present? ==> p.trace == [old(p.world)]
    ensures r.Pass? ==>
      && SavedOf(old(p.world), c).Present?
      && forall n | n in SavedOf(old(p.world), c).state.nodes :: !Up(p.world, n.id)
  {
    var loaded := Open(p, c);
    ghost var w0 := p.world;
    if loaded.Err? {
      if SavedOf(w0, c).Present? {
        NothingYet(w0, SavedOf(w0, c).state.nodes);
      }
      return Fail(loaded.error);
    }
    NothingYet(w0, loaded.value.nodes);
    p.Begin(c, StoppingFrom(w0, loaded.value.nodes));
    StoppingStopSafe(w0, loaded.value.nodes);
    r := StopAll(p, loaded.value.nodes);
    EveryStopPoint(p, w0, loaded.value.nodes);
  }

  /** Start. */
  method Start(p: Provisioner, c: string) returns (r: Outcome)
    requires Tidy(p.world) && Lawful(p.world, c, p.domain)
    modifies p
    ensures p.Valid() && p.scope == c && p.origin == old(p.world)
    ensures SavedOf(old(p.world), c).Present? ==>
              forall k: nat | k < |p.trace| :: Starting(old(p.world), p.trace[k], SavedOf(old(p.world), c).state.nodes)
    ensures !SavedOf(old(p.world), c).Present? ==> p.trace == [old(p.world)]
    ensures r.Pass? ==>
      && SavedOf(old(p.world), c).Present?
      && forall n | n in SavedOf(old(p.world), c).state.nodes :: Serving(p.world, n)
  {
    var loaded := Open(p, c);
    ghost var w0 := p.world;
    if loaded.Err? {
      if SavedOf(w0, c).Present? {
        NothingYet(w0, SavedOf(w0, c).state.nodes);
      }
      return Fail(loaded.error);
    }
    NothingYet(w0, loaded.value.nodes);
    p.Begin(c, StartingFrom(w0, loaded.value.nodes));
    StartingStartSafe(w0, loaded.value.nodes);
    var started := StartRest(p, loaded.value.nodes, {}, loaded.value.nodes);
    EveryStartPoint(p, w0, loaded.value.nodes);
    r := if started.Ok? then Pass else Fail(started.error);
  }
}
