/** Rebuilding a managed datastore from a snapshot (provider/apple/snapshot.go). */
module Restore {
  import opened Types
  import opened Names
  import opened Ordering
  import opened Recipes
  import opened Meaning
  import opened Records
  import opened World
  import opened Runtime
  import opened Fidelity
  import opened Frames
  import opened Lifecycle
  import opened EtcdTLS
  import opened Launches

  const MARKER := "/registry/namespaces/kube-system"

  /** What a restore of this record from this snapshot uses throughout. */
  datatype Plan = Plan(
    c: string,
    domain: string,
    cfg: ClusterConfig,
    mesh: string,
    snapDir: string,
    file: string,
    verify: seq<string>,
    members: seq<NodeInfo>)

  function PlanOf(w: World, st: ClusterState, d: string, snapDir: string, file: string): Plan {
    var members := WithRole(st.nodes, Datastore);
    var dir := ClientDir(w, st.clusterName);
    var cfg := ConfigFromState(st, dir);
    Plan(st.clusterName, d, cfg, EtcdMesh(st.clusterName, d, |members|), snapDir, file,
         if members == [] then [] else VerifyArgs(cfg, VerifyHelper(st.clusterName), members[0].id, dir, MARKER),
         members)
  }

  /** The vector that unpacks the snapshot for one member: the same mesh, token and snapshot for
      all, each under its own name. */
  function Unpack(plan: Plan, m: NodeInfo): seq<string> {
    RestoreArgs(plan.cfg, RestoreHelper(m.name), m.name, plan.domain, plan.mesh, plan.snapDir, plan.file)
  }

  /** What the restored members have in common. */
  function QuorateBy(plan: Plan): Quorate {
    QuorateOf(plan.cfg, plan.mesh)
  }

  /** What was left there is a one-shot's that unpacked this file of this directory into it as the
      start of this member of the mesh. */
  ghost predicate Unpacked(content: Content, m: NodeInfo, q: Quorate, snapDir: string, file: string) {
    match content
    case Left(args) =>
      (match ReadRun(args)
       case Some(l) => NamedVolume(l.volumes) == Some(EtcdVolumeName(m.name)) && Unpacks(l, m.name, m.id, q, snapDir, file)
       case None => false)
    case _ => false
  }

  /** The member's volume was made after t and holds the snapshot. */
  ghost predicate FromSnapshot(w: World, m: NodeInfo, q: Quorate, snapDir: string, file: string, t: nat) {
    && Vol(w, EtcdVolumeName(m.name)).Some?
    && Vol(w, EtcdVolumeName(m.name)).value.born >= t
    && Unpacked(Vol(w, EtcdVolumeName(m.name)).value.content, m, q, snapDir, file)
  }

  ghost predicate Restored(w: World, plan: Plan, m: NodeInfo, t: nat) {
    FromSnapshot(w, m, QuorateBy(plan), plan.snapDir, plan.file, t)
  }

  ghost predicate AllRestored(w: World, plan: Plan, t: nat) {
    forall m | m in plan.members :: Restored(w, plan, m, t)
  }

  /** The vector asks the first member for the marker key, with the clients' keys. */
  ghost predicate AsksMarker(plan: Plan) {
    plan.members != [] &&
    match ReadRun(plan.verify)
    case Some(l) =>
      AsksFor(l, plan.members[0].id, EtcdImage(plan.cfg), plan.cfg.network, plan.cfg.datastoreTLSDir, "/registry/namespaces/kube-system")
    case None => false
  }

  /** The marker key was read back from the restored quorum after t. */
  ghost predicate Verified(w: World, plan: Plan, t: nat) {
    plan.verify in w.answered && w.answered[plan.verify] >= t && AsksMarker(plan)
  }

  /** No member is launched or booted again before every volume is restored. */
  ghost predicate VolumesFirst(w: World, plan: Plan, t: nat) {
    forall m | m in plan.members && At(w, m.id).Some? && (At(w, m.id).value.made >= t || At(w, m.id).value.booted >= t) ::
      AllRestored(w, plan, t)
  }

  /** No other node boots before the marker was read back. */
  ghost predicate MarkerFirst(w: World, nodes: seq<NodeInfo>, plan: Plan, t: nat) {
    forall n | n in nodes && !n.role.Datastore? && At(w, n.id).Some? && At(w, n.id).value.booted >= t :: Verified(w, plan, t)
  }

  const REST: set<Role> := {Server, Agent, LB}

  /** Server and agent volumes are untouched. */
  ghost predicate DataKept(w0: World, w: World) {
    forall v :: Keeps(OwnedVolume(v), {Server, Agent}) ==> Vol(w, v) == Vol(w0, v)
  }

  /** What a restore keeps at every point. */
  ghost predicate Restoring(w0: World, w: World, nodes: seq<NodeInfo>, plan: Plan) {
    && Framed(w0, w, REST) && DataKept(w0, w)
    && (Closed(w0, nodes) ==> Closed(w, nodes))
    && VolumesFirst(w, plan, w0.clock)
    && MarkerFirst(w, nodes, plan, w0.clock)
    && (OnRecord(w0, plan.c, nodes) ==> OnRecord(w, plan.c, nodes))
  }

  ghost function RestoringFrom(w0: World, nodes: seq<NodeInfo>, plan: Plan): World -> bool {
    w => Restoring(w0, w, nodes, plan)
  }

  // ---------------------------------------------------------------------------------------
  // Stopping, and the steps that leave the phase alone
  // ---------------------------------------------------------------------------------------

  lemma AtFirst(w: World, nodes: seq<NodeInfo>, plan: Plan)
    requires Tidy(w)
    ensures Restoring(w, w, nodes, plan)
  {
    FramedSelf(w, REST);
  }

  /** Worlds whose containers of these nodes were made and booted when they were, over the same
      volumes and answers. */
  ghost predicate SameTimes(w: World, w': World, nodes: seq<NodeInfo>, plan: Plan) {
    && w'.volumes == w.volumes && w'.answered == w.answered
    && (forall n | n in nodes || n in plan.members ::
         At(w', n.id).Some? ==> At(w, n.id).Some? && At(w', n.id).value.made == At(w, n.id).value.made
                                && At(w', n.id).value.booted == At(w, n.id).value.booted)
  }

  lemma SameTimesKeep(w0: World, w: World, w': World, nodes: seq<NodeInfo>, plan: Plan)
    requires Restoring(w0, w, nodes, plan) && SameTimes(w, w', nodes, plan)
    requires Framed(w0, w', REST) && (Closed(w, nodes) ==> Closed(w', nodes)) && (OnRecord(w, plan.c, nodes) ==> OnRecord(w', plan.c, nodes))
    ensures Restoring(w0, w', nodes, plan)
  {
    assert forall v :: Vol(w', v) == Vol(w, v);
    assert AllRestored(w, plan, w0.clock) ==> AllRestored(w', plan, w0.clock) by {
      if AllRestored(w, plan, w0.clock) {
        assert forall m | m in plan.members :: Restored(w, plan, m, w0.clock) ==> Restored(w', plan, m, w0.clock);
      }
    }
  }

  lemma RestoringStopSafe(w0: World, nodes: seq<NodeInfo>, plan: Plan)
    requires UniqueIds(nodes)
    ensures StopSafe(RestoringFrom(w0, nodes, plan), nodes)
  {
    var p := RestoringFrom(w0, nodes, plan);
    forall w, i: nat {:trigger Stopped(w, OrderedByRole(nodes, false)[i].id)} |
      i < |OrderedByRole(nodes, false)| && p(w) && AllDown(w, OrderedByRole(nodes, false), i)
      ensures p(Stopped(w, OrderedByRole(nodes, false)[i].id))
    {
      var id := OrderedByRole(nodes, false)[i].id;
      if Closed(w, nodes) {
        StopClosed(w, nodes, i);
      }
      FramedSteps(w0, w, REST, id, Remount);
      SameRecord(w, Stopped(w, id), plan.c, nodes);
      SameTimesKeep(w0, w, Stopped(w, id), nodes, plan);
    }
  }

  lemma RestoringSteady(w0: World, nodes: seq<NodeInfo>, plan: Plan, id: string)
    ensures Steady(RestoringFrom(w0, nodes, plan), id)
  {
    forall w, cmd {:trigger Ran(w, id, cmd)} | Restoring(w0, w, nodes, plan)
      ensures Restoring(w0, Ran(w, id, cmd), nodes, plan)
    {
      FramedSteps(w0, w, REST, id, cmd);
      SameRecord(w, Ran(w, id, cmd), plan.c, nodes);
      if Closed(w, nodes) {
        RanClosed(w, nodes, id, cmd);
      }
      SameTimesKeep(w0, w, Ran(w, id, cmd), nodes, plan);
    }
  }

  lemma RestoringWritten(w0: World, w: World, nodes: seq<NodeInfo>, plan: Plan, path: string, file: File)
    requires Restoring(w0, w, nodes, plan) && (file.Record? ==> Readdressed(nodes, file.state.nodes))
    ensures Restoring(w0, Written(w, path, file), nodes, plan)
  {
    var w' := Written(w, path, file);
    if OnRecord(w, plan.c, nodes) {
      RecordWritten(w, plan.c, nodes, path, file);
    }
    assert forall x :: At(w', x) == At(w, x);
    FramedWritten(w0, w, REST, path, file);
    SameTimesKeep(w0, w, w', nodes, plan);
  }

  /** Once the marker was read back, nodes other than members may boot. */
  lemma RestoringStartSafe(w0: World, w1: World, nodes: seq<NodeInfo>, plan: Plan)
    requires UniqueIds(nodes) && Verified(w1, plan, w0.clock)
    requires forall m | m in plan.members :: m in nodes && m.role.Datastore?
    ensures StartSafe(RestoringFrom(w0, nodes, plan), w1, nodes, {Datastore})
  {
    var p := RestoringFrom(w0, nodes, plan);
    forall w, i: nat {:trigger Started(w, OrderedByRole(nodes, true)[i].id)} |
      i < |OrderedByRole(nodes, true)| && OrderedByRole(nodes, true)[i].role !in {Datastore}
      && p(w) && SkipsKept(w1, w, nodes, {Datastore}) && AllServing(w, OrderedByRole(nodes, true), i)
      ensures p(Started(w, OrderedByRole(nodes, true)[i].id))
    {
      var node := OrderedByRole(nodes, true)[i];
      OrderedMembers(nodes, true);
      assert node in nodes;
      if Closed(w, nodes) {
        StartClosed(w, nodes, i);
      }
      FramedSteps(w0, w, REST, node.id, Remount);
      StartedKeeps(w0, w, nodes, plan, node);
    }
    forall n | n in nodes
      ensures Steady(p, n.id)
    {
      RestoringSteady(w0, nodes, plan, n.id);
    }
  }

  lemma StartedKeeps(w0: World, w: World, nodes: seq<NodeInfo>, plan: Plan, node: NodeInfo)
    requires Restoring(w0, w, nodes, plan) && Verified(w, plan, w0.clock)
    requires UniqueIds(nodes) && node in nodes && !node.role.Datastore?
    requires forall m | m in plan.members :: m in nodes && m.role.Datastore?
    requires Framed(w0, Started(w, node.id), REST) && (Closed(w0, nodes) ==> Closed(Started(w, node.id), nodes))
    ensures Restoring(w0, Started(w, node.id), nodes, plan)
  {
    hide AsksMarker;
    hide Unpacked;
    hide Framed;
    hide Closed;
    var w' := Started(w, node.id);
    SameRecord(w, w', plan.c, nodes);
    assert forall v :: Vol(w', v) == Vol(w, v);
    assert forall m | m in plan.members :: At(w', m.id) == At(w, m.id);
    assert AllRestored(w, plan, w0.clock) ==> AllRestored(w', plan, w0.clock) by {
      if AllRestored(w, plan, w0.clock) {
        assert forall m | m in plan.members :: Restored(w, plan, m, w0.clock) ==> Restored(w', plan, m, w0.clock);
      }
    }
  }

  // ---------------------------------------------------------------------------------------
  // Wiping and unpacking, with everything down
  // ---------------------------------------------------------------------------------------

  ghost predicate FirstRestored(w: World, plan: Plan, t: nat, i: nat) {
    i <= |plan.members| && forall k: nat | k < i :: Restored(w, plan, plan.members[k], t)
  }

  /** Nothing runs, nothing has booted, no member has been launched. */
  ghost predicate Quiet(w: World, nodes: seq<NodeInfo>, plan: Plan, t: nat) {
    && (forall n | n in nodes :: !Up(w, n.id))
    && (forall n | n in nodes && !n.role.Datastore? && At(w, n.id).Some? :: At(w, n.id).value.booted < t)
    && (forall m | m in plan.members && At(w, m.id).Some? :: At(w, m.id).value.made < t && At(w, m.id).value.booted < t)
  }

  ghost predicate Wiping(w0: World, w: World, nodes: seq<NodeInfo>, plan: Plan, i: nat) {
    && Framed(w0, w, REST) && DataKept(w0, w) && w.files == w0.files
    && Quiet(w, nodes, plan, w0.clock)
    && FirstRestored(w, plan, w0.clock, i)
  }

  lemma WipingKeeps(w0: World, w: World, nodes: seq<NodeInfo>, plan: Plan, i: nat)
    requires Wiping(w0, w, nodes, plan, i)
    ensures Restoring(w0, w, nodes, plan)
  {
    SameRecord(w0, w, plan.c, nodes);
  }

  lemma StoppedQuiet(w0: World, w: World, nodes: seq<NodeInfo>, plan: Plan)
    requires Tidy(w0) && OnlyStopped(w0, w) && (forall n | n in nodes :: !Up(w, n.id)) && Restoring(w0, w, nodes, plan)
    ensures Wiping(w0, w, nodes, plan, 0)
  {
    forall id | At(w, id).Some?
      ensures At(w, id).value.booted < w0.clock && At(w, id).value.made < w0.clock
    {
      assert At(w0, id).Some? && TidyContainer(At(w0, id).value, w0.clock);
    }
  }

  /** The members of the record, and what their names give. */
  ghost predicate Planned(plan: Plan, nodes: seq<NodeInfo>, d: string) {
    && Members(nodes, plan.c, d) && plan.domain == d && plan.cfg.name == plan.c && UsableImage(plan.cfg.datastoreImage)
    && plan.members == WithRole(nodes, Datastore) && InMeshOrder(plan.members, plan.c)
  }

  lemma MemberOf(plan: Plan, nodes: seq<NodeInfo>, d: string, i: nat)
    requires Planned(plan, nodes, d) && i < |plan.members|
    ensures
      var m := plan.members[i];
      && m in nodes && m.role.Datastore? && Numbered(m, plan.c, d)
      && Owned(m.id) == Node(plan.c, Datastore) && OwnedVolume(EtcdVolumeName(m.name)) == Node(plan.c, Datastore)
      && Owned(RestoreHelper(m.name)) == Helper(plan.c)
      && (forall n | n in nodes && !n.role.Datastore? :: n.id != m.id)
      && (forall n | n in nodes :: n.id != RestoreHelper(m.name))
  {
    var m := plan.members[i];
    assert m in nodes;
    NumberedOwner(m, plan.c, d);
    NumberedHelpers(m, plan.c, d);
    forall n | n in nodes
      ensures n.id != RestoreHelper(m.name)
    {
      NumberedOwner(n, plan.c, d);
    }
  }

  lemma VolumesApart(plan: Plan, nodes: seq<NodeInfo>, d: string, i: nat, k: nat)
    requires Planned(plan, nodes, d) && i < |plan.members| && k < |plan.members| && i != k
    ensures EtcdVolumeName(plan.members[i].name) != EtcdVolumeName(plan.members[k].name)
    ensures plan.members[i].id != plan.members[k].id
  {
    MemberOf(plan, nodes, d, i);
    MemberOf(plan, nodes, d, k);
    NumberedOwner(plan.members[i], plan.c, d);
    NumberedOwner(plan.members[k], plan.c, d);
    NamesApart(plan, i, k);
    if EtcdVolumeName(plan.members[i].name) == EtcdVolumeName(plan.members[k].name) {
      VolumeNamesNode(plan.c, Datastore, plan.members[i].name, plan.members[k].name);
    }
    if plan.members[i].id == plan.members[k].id {
      FQDNInjective(plan.members[i].name, plan.members[k].name, d);
    }
  }

  lemma NamesApart(plan: Plan, i: nat, k: nat)
    requires InMeshOrder(plan.members, plan.c) && i < |plan.members| && k < |plan.members| && i != k
    ensures plan.members[i].name != plan.members[k].name
  {
    if EtcdName(plan.c, i + 1) == EtcdName(plan.c, k + 1) {
      NodeNameInjective(plan.c, Datastore, i + 1, plan.c, Datastore, k + 1);
    }
  }

  /** A step on one member's container, helper or volume only. */
  ghost predicate StepOn(w: World, w': World, m: NodeInfo, id: string) {
    && (id == m.id || id == RestoreHelper(m.name))
    && (forall x :: x != id ==> At(w', x) == At(w, x))
    && (id == m.id ==> At(w', id).None?)
    && (forall v :: v != EtcdVolumeName(m.name) ==> Vol(w', v) == Vol(w, v))
    && w'.files == w.files && w'.root == w.root && w.clock <= w'.clock
  }

  lemma RestoredStep(w: World, w': World, nodes: seq<NodeInfo>, plan: Plan, i: nat, id: string, t: nat)
    requires Planned(plan, nodes, plan.domain) && i < |plan.members| && StepOn(w, w', plan.members[i], id)
    requires FirstRestored(w, plan, t, i)
    ensures FirstRestored(w', plan, t, i)
  {
    forall k: nat | k < i
      ensures Restored(w', plan, plan.members[k], t)
    {
      VolumesApart(plan, nodes, plan.domain, i, k);
      assert Restored(w, plan, plan.members[k], t);
    }
  }

  lemma QuietStep(w: World, w': World, nodes: seq<NodeInfo>, plan: Plan, i: nat, id: string, t: nat)
    requires Planned(plan, nodes, plan.domain) && i < |plan.members| && StepOn(w, w', plan.members[i], id)
    requires Quiet(w, nodes, plan, t)
    ensures Quiet(w', nodes, plan, t)
  {
    MemberOf(plan, nodes, plan.domain, i);
    forall n | n in nodes
      ensures At(w', n.id) == At(w, n.id) || At(w', n.id).None?
    {
    }
  }

  lemma StepFramed(w0: World, w: World, w': World, nodes: seq<NodeInfo>, plan: Plan, i: nat, id: string)
    requires Framed(w0, w, REST) && DataKept(w0, w) && Planned(plan, nodes, plan.domain) && i < |plan.members|
    requires StepOn(w, w', plan.members[i], id)
    ensures Framed(w0, w', REST) && DataKept(w0, w')
  {
    hide Planned;
    hide Framed;
    hide Owned;
    hide OwnedVolume;
    hide Numbered;
    MemberOf(plan, nodes, plan.domain, i);
    FramedStep(w0, w, w', REST, id, EtcdVolumeName(plan.members[i].name));
  }

  /** Such a step keeps the phase, as long as that member's volume does not count as restored. */
  lemma WipingStep(w0: World, w: World, w': World, nodes: seq<NodeInfo>, plan: Plan, i: nat, id: string)
    requires Wiping(w0, w, nodes, plan, i) && Planned(plan, nodes, plan.domain) && i < |plan.members|
    requires StepOn(w, w', plan.members[i], id)
    ensures Wiping(w0, w', nodes, plan, i)
  {
    StepFramed(w0, w, w', nodes, plan, i, id);
    RestoredStep(w, w', nodes, plan, i, id, w0.clock);
    QuietStep(w, w', nodes, plan, i, id, w0.clock);
  }

  ghost predicate Fresh(w: World, m: NodeInfo, t: nat) {
    Vol(w, EtcdVolumeName(m.name)).Some? && Vol(w, EtcdVolumeName(m.name)).value.born >= t
  }

  /** The operation under way is this restore. */
  ghost predicate Stage(p: Provisioner, nodes: seq<NodeInfo>, plan: Plan, w0: World)
    reads p`watch, p`scope
  {
    p.watch == RestoringFrom(w0, nodes, plan) && p.scope == plan.c && Planned(plan, nodes, p.domain)
  }

  lemma MayStep(p: Provisioner, nodes: seq<NodeInfo>, plan: Plan, w0: World, i: nat, id: string, w': World)
    requires p.Valid() && Stage(p, nodes, plan, w0) && Wiping(w0, p.world, nodes, plan, i) && i < |plan.members|
    requires StepOn(p.world, w', plan.members[i], id)
    ensures p.watch(w') && Wiping(w0, w', nodes, plan, i)
  {
    WipingStep(w0, p.world, w', nodes, plan, i, id);
    WipingKeeps(w0, w', nodes, plan, i);
  }

  lemma StepsOn(w: World, m: NodeInfo, id: string, c: string)
    requires id == m.id || id == RestoreHelper(m.name)
    requires m.id != RestoreHelper(m.name)
    ensures StepOn(w, Removed(w, id), m, id)
    ensures StepOn(w, VolumeGone(w, EtcdVolumeName(m.name)), m, RestoreHelper(m.name))
    ensures StepOn(w, VolumeMade(w, EtcdVolumeName(m.name), VolumeLabels(c)), m, RestoreHelper(m.name))
  {
    assert forall x :: At(Removed(w, id), x) == if x == id then None else At(w, x);
    var w' := VolumeGone(w, EtcdVolumeName(m.name));
    assert forall x :: Vol(w', x) == if x == EtcdVolumeName(m.name) then None else Vol(w, x);
  }

  lemma MayRemove(p: Provisioner, nodes: seq<NodeInfo>, plan: Plan, w0: World, i: nat, id: string)
    requires p.Valid() && Stage(p, nodes, plan, w0) && Wiping(w0, p.world, nodes, plan, i) && i < |plan.members|
    requires id == plan.members[i].id || id == RestoreHelper(plan.members[i].name)
    ensures Owned(id).Of(plan.c) && p.watch(Removed(p.world, id)) && Wiping(w0, Removed(p.world, id), nodes, plan, i)
  {
    MemberOf(plan, nodes, p.domain, i);
    StepsOn(p.world, plan.members[i], id, plan.c);
    MayStep(p, nodes, plan, w0, i, id, Removed(p.world, id));
  }

  lemma MayDelete(p: Provisioner, nodes: seq<NodeInfo>, plan: Plan, w0: World, i: nat)
    requires p.Valid() && Stage(p, nodes, plan, w0) && Wiping(w0, p.world, nodes, plan, i) && i < |plan.members|
    ensures
      var v := EtcdVolumeName(plan.members[i].name);
      OwnedVolume(v).Of(plan.c) && p.watch(VolumeGone(p.world, v)) && Wiping(w0, VolumeGone(p.world, v), nodes, plan, i)
  {
    MemberOf(plan, nodes, p.domain, i);
    var m := plan.members[i];
    StepsOn(p.world, m, RestoreHelper(m.name), plan.c);
    MayStep(p, nodes, plan, w0, i, RestoreHelper(m.name), VolumeGone(p.world, EtcdVolumeName(m.name)));
  }

  lemma MayRenew(p: Provisioner, nodes: seq<NodeInfo>, plan: Plan, w0: World, i: nat)
    requires p.Valid() && Stage(p, nodes, plan, w0) && Wiping(w0, p.world, nodes, plan, i) && i < |plan.members|
    ensures
      var v, labels := EtcdVolumeName(plan.members[i].name), VolumeLabels(plan.c);
      && OwnedVolume(v).Of(plan.c) && LabelValue(labels, CLUSTER_KEY) == NodeCluster(OwnedVolume(v))
      && p.watch(VolumeMade(p.world, v, labels)) && Wiping(w0, VolumeMade(p.world, v, labels), nodes, plan, i)
      && Fresh(VolumeMade(p.world, v, labels), plan.members[i], w0.clock)
  {
    MemberOf(plan, nodes, p.domain, i);
    LabelsRead(plan.c, Datastore);
    var m := plan.members[i];
    StepsOn(p.world, m, RestoreHelper(m.name), plan.c);
    MayStep(p, nodes, plan, w0, i, RestoreHelper(m.name), VolumeMade(p.world, EtcdVolumeName(m.name), VolumeLabels(plan.c)));
    assert w0.clock <= p.world.clock;
  }

  /** The launch unpacks the plan's snapshot for this member. */
  ghost predicate UnpacksFor(l: Launch, plan: Plan, m: NodeInfo) {
    ReadRun(Unpack(plan, m)) == Some(l) && Unpacks(l, m.name, m.id, QuorateBy(plan), plan.snapDir, plan.file)
  }

  lemma UnpackedOn(w: World, plan: Plan, m: NodeInfo, args: seq<string>, l: Launch, content: Content, answers: bool, t: nat)
    requires OfHelper(l, plan.c, RestoreHelper(m.name), Some(EtcdVolumeName(m.name)))
    ensures
      var w' := OneShot(w, args, l, content, answers);
      && (RestoreHelper(m.name) != m.id ==> StepOn(w, w', m, RestoreHelper(m.name)))
      && (Fresh(w, m, t) && content == Left(Unpack(plan, m)) && UnpacksFor(l, plan, m) ==> Restored(w', plan, m, t))
  {
    hide Unpack;
    hide Unpacks;
    hide ReadRun;
    hide QuorateBy;
  }

  lemma MayUnpack(p: Provisioner, nodes: seq<NodeInfo>, plan: Plan, w0: World, i: nat, args: seq<string>, l: Launch, content: Content, answers: bool)
    requires p.Valid() && Stage(p, nodes, plan, w0) && Wiping(w0, p.world, nodes, plan, i) && i < |plan.members|
    requires OfHelper(l, plan.c, RestoreHelper(plan.members[i].name), Some(EtcdVolumeName(plan.members[i].name)))
    ensures
      var w := OneShot(p.world, args, l, content, answers);
      && p.watch(w) && Wiping(w0, w, nodes, plan, i)
      && (Fresh(p.world, plan.members[i], w0.clock) && content == Left(Unpack(plan, plan.members[i])) && UnpacksFor(l, plan, plan.members[i]) ==>
            Restored(w, plan, plan.members[i], w0.clock))
  {
    hide UnpacksFor;
    hide Restored;
    var m := plan.members[i];
    MemberOf(plan, nodes, p.domain, i);
    UnpackedOn(p.world, plan, m, args, l, content, answers, w0.clock);
    MayStep(p, nodes, plan, w0, i, RestoreHelper(m.name), OneShot(p.world, args, l, content, answers));
  }

  lemma MayUnpackAny(p: Provisioner, nodes: seq<NodeInfo>, plan: Plan, w0: World, i: nat, args: seq<string>, l: Launch)
    requires p.Valid() && Stage(p, nodes, plan, w0) && Wiping(w0, p.world, nodes, plan, i) && i < |plan.members|
    requires OfHelper(l, plan.c, RestoreHelper(plan.members[i].name), Some(EtcdVolumeName(plan.members[i].name)))
    ensures forall content, answers {:trigger OneShot(p.world, args, l, content, answers)} ::
              p.watch(OneShot(p.world, args, l, content, answers))
  {
    forall content, answers {:trigger OneShot(p.world, args, l, content, answers)}
      ensures p.watch(OneShot(p.world, args, l, content, answers))
    {
      MayUnpack(p, nodes, plan, w0, i, args, l, content, answers);
    }
  }

  lemma FreshStays(w: World, m: NodeInfo, id: string, t: nat)
    ensures Fresh(w, m, t) ==> Fresh(Removed(w, id), m, t)
  {
  }

  /** The member's old container and volume go, a new volume comes. */
  method RenewVolume(p: Provisioner, nodes: seq<NodeInfo>, plan: Plan, i: nat, ghost w0: World) returns (r: Outcome)
    requires p.Valid() && Stage(p, nodes, plan, w0) && Wiping(w0, p.world, nodes, plan, i) && i < |plan.members|
    modifies p`world, p`trace
    ensures p.Valid()
    ensures r.Pass? ==> Wiping(w0, p.world, nodes, plan, i) && Fresh(p.world, plan.members[i], w0.clock)
  {
    hide *;
    var m := plan.members[i];
    MayRemove(p, nodes, plan, w0, i, m.id);
    StageScope(p, nodes, plan, w0);
    r := p.Remove(m.id);
    if r.Fail? {
      return;
    }
    MayDelete(p, nodes, plan, w0, i);
    r := p.VolumeDelete(EtcdVolumeName(m.name));
    if r.Fail? {
      return;
    }
    MayRenew(p, nodes, plan, w0, i);
    r := p.VolumeCreate(EtcdVolumeName(m.name), VolumeLabels(plan.c));
  }

  lemma StageScope(p: Provisioner, nodes: seq<NodeInfo>, plan: Plan, w0: World)
    requires Stage(p, nodes, plan, w0)
    ensures p.scope == plan.c && plan.cfg.name == plan.c && p.domain == plan.domain
  {
  }

  /** Clearing the unpacking helper, whether or not that succeeds. */
  method ClearUnpacker(p: Provisioner, nodes: seq<NodeInfo>, plan: Plan, i: nat, ghost w0: World)
    requires p.Valid() && Stage(p, nodes, plan, w0) && Wiping(w0, p.world, nodes, plan, i) && i < |plan.members|
    modifies p`world, p`trace
    ensures p.Valid() && Wiping(w0, p.world, nodes, plan, i)
    ensures p.world == old(p.world) || p.world == Removed(old(p.world), RestoreHelper(plan.members[i].name))
  {
    hide *;
    MayRemove(p, nodes, plan, w0, i, RestoreHelper(plan.members[i].name));
    StageScope(p, nodes, plan, w0);
    var ignored := p.Remove(RestoreHelper(plan.members[i].name));
  }

  lemma RestoredStays(w: World, plan: Plan, m: NodeInfo, id: string, t: nat)
    ensures Restored(w, plan, m, t) ==> Restored(Removed(w, id), plan, m, t)
  {
  }

  lemma UnpackReads(plan: Plan, nodes: seq<NodeInfo>, d: string, i: nat)
    requires Planned(plan, nodes, d) && i < |plan.members|
    ensures
      var m := plan.members[i];
      var l := RestoreLaunch(plan.cfg, m.name, plan.domain, plan.mesh, plan.snapDir, plan.file);
      && ReadRun(Unpack(plan, m)) == Some(l) && UnpacksFor(l, plan, m)
      && OfHelper(l, plan.c, RestoreHelper(m.name), Some(EtcdVolumeName(m.name)))
      && l.names != [] && Owned(l.names[0]) == Helper(plan.c) && LabelValue(l.labels, CLUSTER_KEY) == None
      && (NamedVolume(l.volumes).Some? ==> OwnedVolume(NamedVolume(l.volumes).value).Of(plan.c))
  {
    hide Unpacks;
    MemberOf(plan, nodes, d, i);
    RestoreReads(plan.cfg, plan.members[i], d, plan.mesh, plan.snapDir, plan.file);
  }

  method RunUnpacker(p: Provisioner, nodes: seq<NodeInfo>, plan: Plan, i: nat, ghost w0: World) returns (r: Outcome)
    requires p.Valid() && Stage(p, nodes, plan, w0) && Wiping(w0, p.world, nodes, plan, i) && i < |plan.members|
    requires Fresh(p.world, plan.members[i], w0.clock)
    modifies p`world, p`trace
    ensures p.Valid()
    ensures r.Pass? ==> Wiping(w0, p.world, nodes, plan, i) && Restored(p.world, plan, plan.members[i], w0.clock)
  {
    var m := plan.members[i];
    ghost var l := RestoreLaunch(plan.cfg, m.name, plan.domain, plan.mesh, plan.snapDir, plan.file);
    UnpackReads(plan, nodes, p.domain, i);
    StageScope(p, nodes, plan, w0);
    hide *;
    MayUnpackAny(p, nodes, plan, w0, i, Unpack(plan, m), l);
    MayUnpack(p, nodes, plan, w0, i, Unpack(plan, m), l, Left(Unpack(plan, m)), true);
    MayUnpack(p, nodes, plan, w0, i, Unpack(plan, m), l, Left(Unpack(plan, m)), false);
    var unpacked := p.RunOnce(Unpack(plan, m), l);
    r := if unpacked.Ok? then Pass else Fail(unpacked.error);
  }

  /** The snapshot is unpacked into the new volume. */
  method UnpackSnapshot(p: Provisioner, nodes: seq<NodeInfo>, plan: Plan, i: nat, ghost w0: World) returns (r: Outcome)
    requires p.Valid() && Stage(p, nodes, plan, w0) && Wiping(w0, p.world, nodes, plan, i) && i < |plan.members|
    requires Fresh(p.world, plan.members[i], w0.clock)
    modifies p`world, p`trace
    ensures p.Valid()
    ensures r.Pass? ==> Wiping(w0, p.world, nodes, plan, i) && Restored(p.world, plan, plan.members[i], w0.clock)
  {
    hide *;
    ghost var m := plan.members[i];
    FreshStays(p.world, m, RestoreHelper(m.name), w0.clock);
    ClearUnpacker(p, nodes, plan, i, w0);
    r := RunUnpacker(p, nodes, plan, i, w0);
    if r.Fail? {
      return;
    }
    RestoredStays(p.world, plan, m, RestoreHelper(m.name), w0.clock);
    ClearUnpacker(p, nodes, plan, i, w0);
  }

  lemma OneMoreRestored(w0: World, w: World, nodes: seq<NodeInfo>, plan: Plan, i: nat)
    requires Wiping(w0, w, nodes, plan, i) && i < |plan.members| && Restored(w, plan, plan.members[i], w0.clock)
    ensures Wiping(w0, w, nodes, plan, i + 1)
  {
  }

  /** restoreEtcdMembers, first pass. */
  method RestoreVolumes(p: Provisioner, nodes: seq<NodeInfo>, plan: Plan, ghost w0: World) returns (r: Outcome)
    requires p.Valid() && Stage(p, nodes, plan, w0) && Wiping(w0, p.world, nodes, plan, 0)
    modifies p`world, p`trace
    ensures p.Valid()
    ensures r.Pass? ==> Wiping(w0, p.world, nodes, plan, |plan.members|)
  {
    hide *;
    for i := 0 to |plan.members|
      invariant p.Valid() && Wiping(w0, p.world, nodes, plan, i)
    {
      r := RenewVolume(p, nodes, plan, i, w0);
      if r.Fail? {
        return;
      }
      r := UnpackSnapshot(p, nodes, plan, i, w0);
      if r.Fail? {
        return;
      }
      OneMoreRestored(w0, p.world, nodes, plan, i);
    }
    r := Pass;
  }

  // ---------------------------------------------------------------------------------------
  // Relaunching the quorum
  // ---------------------------------------------------------------------------------------

  /** The member runs on its own present volume and its own bundle, over the plan's mesh. */
  ghost predicate Running(w: World, plan: Plan, m: NodeInfo) {
    && Up(w, m.id)
    && Mounted(w, At(w, m.id).value, Some(EtcdVolumeName(m.name)))
    && TLSSource(At(w, m.id).value.launch.volumes) == Some(TLSDir(w.root, plan.c, m.name))
    && At(w, m.id).value.launch.command == EtcdCommand(plan.c, m.name, plan.domain, plan.mesh)
    && RunsMember(At(w, m.id).value.launch, m.name, m.id, m.memory, QuorateBy(plan), TLSDir(w.root, plan.c, m.name))
  }

  ghost predicate FirstRunning(w: World, plan: Plan, i: nat) {
    i <= |plan.members| && forall k: nat | k < i :: Running(w, plan, plan.members[k])
  }

  /** Only members run. */
  ghost predicate OthersDown(w: World, nodes: seq<NodeInfo>, t: nat) {
    forall n | n in nodes && !n.role.Datastore? && At(w, n.id).Some? :: !At(w, n.id).value.running && At(w, n.id).value.booted < t
  }

  ghost predicate Launching(w0: World, w: World, nodes: seq<NodeInfo>, plan: Plan, i: nat) {
    && Framed(w0, w, REST) && DataKept(w0, w) && w.files == w0.files
    && AllRestored(w, plan, w0.clock)
    && OthersDown(w, nodes, w0.clock)
    && FirstRunning(w, plan, i)
  }

  lemma LaunchingKeeps(w0: World, w: World, nodes: seq<NodeInfo>, plan: Plan, i: nat)
    requires Launching(w0, w, nodes, plan, i)
    ensures Restoring(w0, w, nodes, plan)
  {
    SameRecord(w0, w, plan.c, nodes);
  }

  lemma WipedLaunches(w0: World, w: World, nodes: seq<NodeInfo>, plan: Plan)
    requires Wiping(w0, w, nodes, plan, |plan.members|)
    ensures Launching(w0, w, nodes, plan, 0)
  {
    forall m | m in plan.members
      ensures Restored(w, plan, m, w0.clock)
    {
      var k: nat :| k < |plan.members| && plan.members[k] == m;
    }
  }

  /** Worlds that agree on volumes, files, members and the other nodes. */
  lemma LaunchingSame(w0: World, w: World, w': World, nodes: seq<NodeInfo>, plan: Plan, i: nat)
    requires Launching(w0, w, nodes, plan, i) && Framed(w0, w', REST)
    requires w'.files == w.files && w'.volumes == w.volumes && w'.root == w.root
    requires forall n | n in nodes && !n.role.Datastore? :: At(w', n.id) == At(w, n.id)
    requires forall k: nat | k < i && k < |plan.members| :: At(w', plan.members[k].id) == At(w, plan.members[k].id)
    ensures Launching(w0, w', nodes, plan, i)
  {
    assert forall v :: Vol(w', v) == Vol(w, v);
    forall m | m in plan.members
      ensures Restored(w', plan, m, w0.clock)
    {
      assert Restored(w, plan, m, w0.clock);
    }
    forall k: nat | k < i
      ensures Running(w', plan, plan.members[k])
    {
      assert Running(w, plan, plan.members[k]);
    }
  }

  lemma PlacedApart(w: World, nodes: seq<NodeInfo>, plan: Plan, i: nat, l: Launch, boots: bool)
    requires Planned(plan, nodes, plan.domain) && i < |plan.members| && l.names == [plan.members[i].id]
    ensures forall n | n in nodes && !n.role.Datastore? :: At(Placed(w, l, boots), n.id) == At(w, n.id)
    ensures forall k: nat | k < i && k < |plan.members| :: At(Placed(w, l, boots), plan.members[k].id) == At(w, plan.members[k].id)
  {
    hide Planned;
    hide Owned;
    hide OwnedVolume;
    hide Numbered;
    MemberOf(plan, nodes, plan.domain, i);
    forall k: nat | k < i && k < |plan.members|
      ensures plan.members[k].id != plan.members[i].id
    {
      VolumesApart(plan, nodes, plan.domain, i, k);
    }
  }

  lemma PlacedFramed(w0: World, w: World, nodes: seq<NodeInfo>, plan: Plan, i: nat, l: Launch, boots: bool)
    requires Launching(w0, w, nodes, plan, i) && l.names != [] && Owned(l.names[0]).Node? && Owned(l.names[0]).role.Datastore?
    ensures Framed(w0, Placed(w, l, boots), REST)
    ensures Placed(w, l, boots).volumes == w.volumes && Placed(w, l, boots).files == w.files && Placed(w, l, boots).root == w.root
  {
    hide Owned;
    hide OwnedVolume;
    hide Running;
    hide AllRestored;
    assert OwnedVolume("") == Foreign by {
      NoVolume();
    }
    FramedOthers(w0, w, REST, l, boots, "", []);
  }

  lemma NoVolume()
    ensures OwnedVolume("") == Foreign
  {
  }

  lemma PlacedLaunching(w0: World, w: World, nodes: seq<NodeInfo>, plan: Plan, i: nat, l: Launch, boots: bool)
    requires Launching(w0, w, nodes, plan, i) && Planned(plan, nodes, plan.domain) && i < |plan.members|
    requires OfNode(l, plan.c, plan.members[i].id, Datastore, Some(EtcdVolumeName(plan.members[i].name)))
    ensures Launching(w0, Placed(w, l, boots), nodes, plan, i)
  {
    hide Launching;
    hide Planned;
    hide Owned;
    hide Placed;
    PlacedFramed(w0, w, nodes, plan, i, l, boots);
    PlacedApart(w, nodes, plan, i, l, boots);
    LaunchingSame(w0, w, Placed(w, l, boots), nodes, plan, i);
  }

  lemma PlacedRuns(w: World, plan: Plan, m: NodeInfo, l: Launch, t: nat)
    requires OfNode(l, plan.c, m.id, Datastore, Some(EtcdVolumeName(m.name))) && Restored(w, plan, m, t)
    requires TLSSource(l.volumes) == Some(TLSDir(w.root, plan.c, m.name))
    requires l.command == EtcdCommand(plan.c, m.name, plan.domain, plan.mesh)
    requires RunsMember(l, m.name, m.id, m.memory, QuorateBy(plan), TLSDir(w.root, plan.c, m.name))
    ensures Running(Placed(w, l, true), plan, m)
  {
    hide RunsMember;
    hide EtcdCommand;
    hide Unpacked;
    hide TLSSource;
    hide TLSDir;
    hide Owned;
    hide EtcdVolumeName;
    hide NamedVolume;
    hide LabelValue;
    hide QuorateBy;
    hide Loaded;
    hide Configured;
    assert Vol(Placed(w, l, true), EtcdVolumeName(m.name)) == Vol(w, EtcdVolumeName(m.name));
  }

  lemma MayLaunch(p: Provisioner, nodes: seq<NodeInfo>, plan: Plan, w0: World, i: nat)
    requires p.Valid() && Stage(p, nodes, plan, w0) && Launching(w0, p.world, nodes, plan, i) && i < |plan.members|
    ensures
      var m, dir := plan.members[i], TLSDir(p.world.root, plan.c, plan.members[i].name);
      var l := EtcdLaunch(plan.cfg, NodeConfigFromInfo(m), plan.domain, plan.mesh, dir);
      && ReadRun(EtcdRunArgs(plan.cfg, NodeConfigFromInfo(m), plan.domain, plan.mesh, dir)) == Some(l)
      && l.names == [m.id] && Owned(m.id).Of(plan.c) && LabelValue(l.labels, CLUSTER_KEY) == NodeCluster(Owned(m.id))
      && p.watch(Placed(p.world, l, false)) && p.watch(Placed(p.world, l, true))
      && Launching(w0, Placed(p.world, l, true), nodes, plan, i) && Running(Placed(p.world, l, true), plan, m)
  {
    hide RunsMember;
    hide EtcdCommand;
    hide Unpacked;
    p.Now();
    var m, dir := plan.members[i], TLSDir(p.world.root, plan.c, plan.members[i].name);
    MemberOf(plan, nodes, p.domain, i);
    MemberDir(p.world.root, plan.c, m, p.domain);
    EtcdReads(plan.cfg, m, plan.domain, plan.mesh, dir);
    var l := EtcdLaunch(plan.cfg, NodeConfigFromInfo(m), plan.domain, plan.mesh, dir);
    PlacedLaunching(w0, p.world, nodes, plan, i, l, false);
    PlacedLaunching(w0, p.world, nodes, plan, i, l, true);
    assert m in plan.members;
    PlacedRuns(p.world, plan, m, l, w0.clock);
    LaunchingKeeps(w0, Placed(p.world, l, false), nodes, plan, i);
    LaunchingKeeps(w0, Placed(p.world, l, true), nodes, plan, i);
  }

  lemma OneMoreRunning(w0: World, w: World, nodes: seq<NodeInfo>, plan: Plan, i: nat)
    requires Launching(w0, w, nodes, plan, i) && i < |plan.members| && Running(w, plan, plan.members[i])
    ensures Launching(w0, w, nodes, plan, i + 1)
  {
  }

  method LaunchMember(p: Provisioner, nodes: seq<NodeInfo>, plan: Plan, i: nat, ghost w0: World) returns (r: Result<Addr>)
    requires p.Valid() && Stage(p, nodes, plan, w0) && Launching(w0, p.world, nodes, plan, i) && i < |plan.members|
    modifies p`world, p`trace
    ensures p.Valid()
    ensures r.Ok? ==> Launching(w0, p.world, nodes, plan, i + 1)
  {
    MayLaunch(p, nodes, plan, w0, i);
    StageScope(p, nodes, plan, w0);
    hide *;
    var m := plan.members[i];
    var dir := TLSDir(p.world.root, plan.c, m.name);
    ghost var l := EtcdLaunch(plan.cfg, NodeConfigFromInfo(m), plan.domain, plan.mesh, dir);
    var launched := p.Run(EtcdRunArgs(plan.cfg, NodeConfigFromInfo(m), plan.domain, plan.mesh, dir), l);
    if launched.Fail? {
      return Err(launched.error);
    }
    OneMoreRunning(w0, p.world, nodes, plan, i);
    r := p.InspectIPv4(m.id);
  }

  /** One wait per member. */
  method AwaitAll(p: Provisioner, n: nat) returns (r: Outcome) {
    for i := 0 to n {
      r := p.Await();
      if r.Fail? {
        return;
      }
    }
    r := Pass;
  }

  method LaunchAll(p: Provisioner, nodes: seq<NodeInfo>, plan: Plan, ghost w0: World) returns (r: Result<seq<NodeInfo>>)
    requires p.Valid() && Stage(p, nodes, plan, w0) && Launching(w0, p.world, nodes, plan, 0)
    modifies p`world, p`trace
    ensures p.Valid()
    ensures r.Ok? ==> Launching(w0, p.world, nodes, plan, |plan.members|) && Readdressed(nodes, r.value)
  {
    r := Ok(nodes);
    assert Readdressed(nodes, nodes);
    hide *;
    for i := 0 to |plan.members|
      invariant p.Valid() && Launching(w0, p.world, nodes, plan, i)
      invariant r.Ok? && Readdressed(nodes, r.value)
    {
      r := LaunchAndRecord(p, nodes, plan, i, r.value, w0);
      if r.Err? {
        return;
      }
    }
  }

  method LaunchAndRecord(p: Provisioner, nodes: seq<NodeInfo>, plan: Plan, i: nat, recorded: seq<NodeInfo>, ghost w0: World)
    returns (r: Result<seq<NodeInfo>>)
    requires p.Valid() && Stage(p, nodes, plan, w0) && Launching(w0, p.world, nodes, plan, i) && i < |plan.members|
    requires Readdressed(nodes, recorded)
    modifies p`world, p`trace
    ensures p.Valid()
    ensures r.Ok? ==> Launching(w0, p.world, nodes, plan, i + 1) && Readdressed(nodes, r.value)
  {
    MemberOf(plan, nodes, p.domain, i);
    assert UniqueIds(nodes);
    hide *;
    var addr := LaunchMember(p, nodes, plan, i, w0);
    if addr.Err? {
      return Err(addr.error);
    }
    ReaddressOne(nodes, recorded, plan.members[i], [addr.value]);
    r := Ok(ReplaceNode(recorded, plan.members[i].(ips := [addr.value])));
  }

  /** launchRestoredMembers: all are launched before any is waited for. */
  method LaunchMembers(p: Provisioner, nodes: seq<NodeInfo>, plan: Plan, ghost w0: World) returns (r: Result<seq<NodeInfo>>)
    requires p.Valid() && Stage(p, nodes, plan, w0) && Launching(w0, p.world, nodes, plan, 0)
    modifies p`world, p`trace
    ensures p.Valid()
    ensures r.Ok? ==> Launching(w0, p.world, nodes, plan, |plan.members|) && Readdressed(nodes, r.value)
  {
    hide *;
    r := LaunchAll(p, nodes, plan, w0);
    if r.Err? {
      return;
    }
    var dialled := AwaitAll(p, |plan.members|);
    if dialled.Fail? {
      r := Err(dialled.error);
    }
  }

  // ---------------------------------------------------------------------------------------
  // The marker check
  // ---------------------------------------------------------------------------------------

  lemma CheckReads(plan: Plan, nodes: seq<NodeInfo>, d: string, w: World, key: string)
    requires Planned(plan, nodes, d) && plan.members != [] && HostPath(w.root) && !IsFlag(key)
    ensures
      var dir := ClientDir(w, plan.c);
      var l := VerifyLaunch(plan.cfg, plan.members[0].id, dir, key);
      && ReadRun(VerifyArgs(plan.cfg, VerifyHelper(plan.c), plan.members[0].id, dir, key)) == Some(l)
      && OfHelper(l, plan.c, VerifyHelper(plan.c), None)
      && l.names != [] && l.names[0] == VerifyHelper(plan.c)
      && Owned(l.names[0]) == Helper(plan.c) && LabelValue(l.labels, CLUSTER_KEY) == None && NamedVolume(l.volumes) == None
      && (forall n | n in nodes :: n.id != VerifyHelper(plan.c))
      && AsksFor(l, plan.members[0].id, EtcdImage(plan.cfg), plan.cfg.network, dir, key)
  {
    hide AsksFor;
    var dir := ClientDir(w, plan.c);
    ClientPath(w.root, plan.c);
    VerifyReads(plan.cfg, plan.members[0].id, dir, key);
    OwnedClusterHelpers(plan.c);
    forall n | n in nodes
      ensures n.id != VerifyHelper(plan.c)
    {
      NumberedOwner(n, plan.c, d);
    }
  }

  lemma MayCheck(p: Provisioner, nodes: seq<NodeInfo>, plan: Plan, w0: World, w': World, id: string)
    requires p.Valid() && Stage(p, nodes, plan, w0) && Launching(w0, p.world, nodes, plan, |plan.members|)
    requires Owned(id) == Helper(plan.c) && forall n | n in nodes :: n.id != id
    requires w'.files == p.world.files && w'.volumes == p.world.volumes && w'.root == p.world.root && p.world.clock <= w'.clock
    requires forall x :: x != id ==> At(w', x) == At(p.world, x)
    ensures p.watch(w') && Launching(w0, w', nodes, plan, |plan.members|)
  {
    FramedStep(w0, p.world, w', REST, id, "");
    LaunchingSame(w0, p.world, w', nodes, plan, |plan.members|);
    LaunchingKeeps(w0, w', nodes, plan, |plan.members|);
  }

  method ClearChecker(p: Provisioner, nodes: seq<NodeInfo>, plan: Plan, ghost w0: World)
    requires p.Valid() && Stage(p, nodes, plan, w0) && Launching(w0, p.world, nodes, plan, |plan.members|)
    modifies p`world, p`trace
    ensures p.Valid() && Launching(w0, p.world, nodes, plan, |plan.members|)
    ensures p.world.answered == old(p.world).answered
  {
    MayClearChecker(p, nodes, plan, w0);
    var ignored := p.Remove(VerifyHelper(plan.c));
  }

  lemma MayClearChecker(p: Provisioner, nodes: seq<NodeInfo>, plan: Plan, w0: World)
    requires p.Valid() && Stage(p, nodes, plan, w0) && Launching(w0, p.world, nodes, plan, |plan.members|)
    ensures
      var w' := Removed(p.world, VerifyHelper(plan.c));
      Owned(VerifyHelper(plan.c)).Of(p.scope) && p.watch(w') && Launching(w0, w', nodes, plan, |plan.members|)
  {
    hide Launching;
    hide Owned;
    hide Numbered;
    hide VerifyHelper;
    OwnedClusterHelpers(plan.c);
    forall n | n in nodes
      ensures n.id != VerifyHelper(plan.c)
    {
      NumberedOwner(n, plan.c, p.domain);
    }
    var w' := Removed(p.world, VerifyHelper(plan.c));
    assert forall x :: x != VerifyHelper(plan.c) ==> At(w', x) == At(p.world, x);
    MayCheck(p, nodes, plan, w0, w', VerifyHelper(plan.c));
  }

  lemma MayAsk(p: Provisioner, nodes: seq<NodeInfo>, plan: Plan, w0: World, args: seq<string>, l: Launch)
    requires p.Valid() && Stage(p, nodes, plan, w0) && Launching(w0, p.world, nodes, plan, |plan.members|)
    requires l.names == [VerifyHelper(plan.c)] && NamedVolume(l.volumes) == None
    ensures forall content, answers {:trigger OneShot(p.world, args, l, content, answers)} ::
              p.watch(OneShot(p.world, args, l, content, answers))
              && Launching(w0, OneShot(p.world, args, l, content, answers), nodes, plan, |plan.members|)
  {
    OwnedClusterHelpers(plan.c);
    forall n | n in nodes
      ensures n.id != VerifyHelper(plan.c)
    {
      NumberedOwner(n, plan.c, p.domain);
    }
    forall content, answers {:trigger OneShot(p.world, args, l, content, answers)}
      ensures p.watch(OneShot(p.world, args, l, content, answers))
              && Launching(w0, OneShot(p.world, args, l, content, answers), nodes, plan, |plan.members|)
    {
      MayCheck(p, nodes, plan, w0, OneShot(p.world, args, l, content, answers), VerifyHelper(plan.c));
    }
  }

  lemma AnsweredNow(w: World, args: seq<string>, l: Launch, content: Content, plan: Plan, t: nat)
    requires args == plan.verify && t <= w.clock && l.names != [] && AsksMarker(plan)
    ensures Verified(OneShot(w, args, l, content, true), plan, t)
  {
  }

  lemma VerifiedSame(w: World, w': World, plan: Plan, t: nat)
    requires w'.answered == w.answered
    ensures Verified(w, plan, t) ==> Verified(w', plan, t)
  {
  }

  /** verifyRestoreMarker. */
  method VerifyMarker(p: Provisioner, nodes: seq<NodeInfo>, plan: Plan, ghost w0: World) returns (r: Outcome)
    requires p.Valid() && Stage(p, nodes, plan, w0) && Launching(w0, p.world, nodes, plan, |plan.members|)
    requires plan.members != []
    requires plan.verify == VerifyArgs(plan.cfg, VerifyHelper(plan.c), plan.members[0].id, ClientDir(w0, plan.c), MARKER)
    requires plan.cfg.datastoreTLSDir == ClientDir(w0, plan.c)
    modifies p`world, p`trace
    ensures p.Valid()
    ensures r.Pass? ==> Launching(w0, p.world, nodes, plan, |plan.members|) && Verified(p.world, plan, w0.clock)
  {
    hide *;
    ClearChecker(p, nodes, plan, w0);
    MayVerify(p, nodes, plan, w0);
    var args := VerifyArgs(plan.cfg, VerifyHelper(plan.c), plan.members[0].id, ClientDir(p.world, plan.c), MARKER);
    ghost var l := VerifyLaunch(plan.cfg, plan.members[0].id, ClientDir(p.world, plan.c), MARKER);
    r := AskMarker(p, nodes, plan, args, l, w0);
  }

  lemma MayVerify(p: Provisioner, nodes: seq<NodeInfo>, plan: Plan, w0: World)
    requires p.Valid() && Stage(p, nodes, plan, w0) && Launching(w0, p.world, nodes, plan, |plan.members|)
    requires plan.members != [] && plan.cfg.datastoreTLSDir == ClientDir(w0, plan.c)
    requires plan.verify == VerifyArgs(plan.cfg, VerifyHelper(plan.c), plan.members[0].id, ClientDir(w0, plan.c), MARKER)
    ensures
      var dir := ClientDir(p.world, plan.c);
      var l := VerifyLaunch(plan.cfg, plan.members[0].id, dir, MARKER);
      && plan.verify == VerifyArgs(plan.cfg, VerifyHelper(plan.c), plan.members[0].id, dir, MARKER) && ReadRun(plan.verify) == Some(l)
      && w0.clock <= p.world.clock && AsksMarker(plan)
      && l.names == [VerifyHelper(plan.c)] && Owned(l.names[0]) == Helper(plan.c)
      && LabelValue(l.labels, CLUSTER_KEY) == None && NamedVolume(l.volumes) == None
  {
    hide VerifyArgs;
    hide AsksFor;
    hide ReadRun;
    hide Owned;
    hide LabelValue;
    hide NamedVolume;
    hide ClientDir;
    hide Restored;
    hide Running;
    hide Numbered;
    hide VerifyHelper;
    p.Now();
    SameClientDir(w0, p.world, nodes, plan);
    MarkerIsKey();
    CheckReads(plan, nodes, p.domain, p.world, MARKER);
  }

  lemma MarkerIsKey()
    ensures !IsFlag(MARKER) && MARKER == "/registry/namespaces/kube-system"
  {
  }

  lemma SameClientDir(w0: World, w: World, nodes: seq<NodeInfo>, plan: Plan)
    requires Launching(w0, w, nodes, plan, |plan.members|)
    ensures ClientDir(w, plan.c) == ClientDir(w0, plan.c) && w0.clock <= w.clock
  {
  }

  method AskMarker(p: Provisioner, nodes: seq<NodeInfo>, plan: Plan, args: seq<string>, ghost l: Launch, ghost w0: World) returns (r: Outcome)
    requires p.Valid() && Stage(p, nodes, plan, w0) && Launching(w0, p.world, nodes, plan, |plan.members|)
    requires args == plan.verify && ReadRun(args) == Some(l) && w0.clock <= p.world.clock && AsksMarker(plan)
    requires l.names == [VerifyHelper(plan.c)] && Owned(l.names[0]) == Helper(plan.c)
    requires LabelValue(l.labels, CLUSTER_KEY) == None && NamedVolume(l.volumes) == None
    modifies p`world, p`trace
    ensures p.Valid()
    ensures r.Pass? ==> Launching(w0, p.world, nodes, plan, |plan.members|) && Verified(p.world, plan, w0.clock)
  {
    hide *;
    MayAsk(p, nodes, plan, w0, args, l);
    StageScope(p, nodes, plan, w0);
    AnsweredNow(p.world, args, l, Left(args), plan, w0.clock);
    var out := p.RunOnce(args, l);
    ghost var w := p.world;
    ClearChecker(p, nodes, plan, w0);
    VerifiedSame(w, p.world, plan, w0.clock);
    if out.Err? {
      return Fail(out.error);
    }
    if out.value == "" {
      return Fail(MarkerAbsent);
    }
    r := Pass;
  }

  // ---------------------------------------------------------------------------------------
  // The orchestration
  // ---------------------------------------------------------------------------------------

  lemma MembersServe(w0: World, w: World, nodes: seq<NodeInfo>, plan: Plan, d: string)
    requires Launching(w0, w, nodes, plan, |plan.members|) && Planned(plan, nodes, d)
    ensures forall n | n in nodes && n.role in {Datastore} :: Serving(w, n) && Running(w, plan, n)
  {
    forall n | n in nodes && n.role in {Datastore}
      ensures Serving(w, n) && Running(w, plan, n)
    {
      assert n in plan.members;
      var k: nat :| k < |plan.members| && plan.members[k] == n;
      assert Running(w, plan, plan.members[k]);
    }
  }

  lemma MayRestart(p: Provisioner, nodes: seq<NodeInfo>, plan: Plan, w0: World)
    requires p.Valid() && Stage(p, nodes, plan, w0) && Verified(p.world, plan, w0.clock)
    ensures StartLoop(p, p.world, nodes, {Datastore})
  {
    RestoringStartSafe(w0, p.world, nodes, plan);
  }

  /** Everything back on the restored quorum. */
  ghost predicate Rebuilt(w0: World, w: World, nodes: seq<NodeInfo>, plan: Plan) {
    && Framed(w0, w, REST) && w.files == w0.files
    && AllRestored(w, plan, w0.clock)
    && (forall n | n in nodes :: Serving(w, n))
    && (forall m | m in plan.members :: Running(w, plan, m))
  }

  lemma NowRebuilt(w0: World, w1: World, w: World, nodes: seq<NodeInfo>, plan: Plan, d: string)
    requires Launching(w0, w1, nodes, plan, |plan.members|) && Planned(plan, nodes, d) && SkipsKept(w1, w, nodes, {Datastore})
    requires Restoring(w0, w, nodes, plan) && forall n | n in nodes :: Serving(w, n)
    ensures Rebuilt(w0, w, nodes, plan)
  {
    MembersServe(w0, w1, nodes, plan, d);
    assert forall v :: Vol(w, v) == Vol(w1, v);
    forall m | m in plan.members
      ensures Running(w, plan, m) && Restored(w, plan, m, w0.clock)
    {
      assert Running(w1, plan, m) && Restored(w1, plan, m, w0.clock);
      assert At(w, m.id) == At(w1, m.id);
    }
  }

  /** runRestore up to the new record. */
  method Rebuild(p: Provisioner, nodes: seq<NodeInfo>, plan: Plan, ghost w0: World) returns (r: Result<seq<NodeInfo>>)
    requires p.Valid() && Stage(p, nodes, plan, w0) && Wiping(w0, p.world, nodes, plan, 0) && plan.members != []
    requires plan.verify == VerifyArgs(plan.cfg, VerifyHelper(plan.c), plan.members[0].id, ClientDir(w0, plan.c), MARKER)
    requires plan.cfg.datastoreTLSDir == ClientDir(w0, plan.c)
    modifies p`world, p`trace
    ensures p.Valid()
    ensures r.Ok? ==> Rebuilt(w0, p.world, nodes, plan) && Readdressed(nodes, r.value)
  {
    hide *;
    StageScope(p, nodes, plan, w0);
    var restored := RestoreVolumes(p, nodes, plan, w0);
    if restored.Fail? {
      return Err(restored.error);
    }
    WipedLaunches(w0, p.world, nodes, plan);
    r := LaunchMembers(p, nodes, plan, w0);
    if r.Err? {
      return;
    }
    var verified := VerifyMarker(p, nodes, plan, w0);
    if verified.Fail? {
      return Err(verified.error);
    }
    r := RestartRest(p, nodes, plan, r.value, w0);
  }

  lemma StagePlanned(p: Provisioner, nodes: seq<NodeInfo>, plan: Plan, w0: World)
    requires Stage(p, nodes, plan, w0)
    ensures Planned(plan, nodes, p.domain)
  {
  }

  lemma NowRestoring(p: Provisioner, nodes: seq<NodeInfo>, plan: Plan, w0: World)
    requires p.Valid() && Stage(p, nodes, plan, w0)
    ensures Restoring(w0, p.world, nodes, plan)
  {
    p.Now();
  }

  /** startNonDatastore. */
  method RestartRest(p: Provisioner, nodes: seq<NodeInfo>, plan: Plan, recorded: seq<NodeInfo>, ghost w0: World) returns (r: Result<seq<NodeInfo>>)
    requires p.Valid() && Stage(p, nodes, plan, w0) && Launching(w0, p.world, nodes, plan, |plan.members|)
    requires Verified(p.world, plan, w0.clock) && Readdressed(nodes, recorded)
    modifies p`world, p`trace
    ensures p.Valid()
    ensures r.Ok? ==> Rebuilt(w0, p.world, nodes, plan) && Readdressed(nodes, r.value)
  {
    hide *;
    ghost var w1 := p.world;
    StagePlanned(p, nodes, plan, w0);
    MembersServe(w0, w1, nodes, plan, p.domain);
    MayRestart(p, nodes, plan, w0);
    r := StartRest(p, nodes, {Datastore}, recorded);
    NowRestoring(p, nodes, plan, w0);
    if r.Ok? {
      NowRebuilt(w0, w1, p.world, nodes, plan, p.domain);
    }
  }

  /** The member runs where its snapshot was unpacked: in the same directory of the same volume,
      under the same name, in the same mesh. */
  ghost predicate StartsRestored(w: World, m: NodeInfo) {
    && At(w, m.id).Some? && At(w, m.id).value.volume == Some(EtcdVolumeName(m.name)) && Vol(w, EtcdVolumeName(m.name)).Some?
    && match Vol(w, EtcdVolumeName(m.name)).value.content
       case Left(args) => (match ReadRun(args) case Some(l) => SameStart(l, At(w, m.id).value.launch) case None => false)
       case _ => false
  }

  predicate SameStart(l: Launch, run: Launch) {
    && VolumeTarget(l.volumes) == VolumeTarget(run.volumes)
    && (forall flag | flag in ["--data-dir", "--name", "--initial-cluster", "--initial-cluster-token", "--initial-advertise-peer-urls"] ::
         Setting(l.command, flag).Some? && Setting(l.command, flag) == Setting(run.command, flag))
  }

  lemma UnpackedThenRuns(l: Launch, run: Launch, m: NodeInfo, q: Quorate, snapDir: string, file: string, dir: string)
    requires Unpacks(l, m.name, m.id, q, snapDir, file) && RunsMember(run, m.name, m.id, m.memory, q, dir)
    ensures SameStart(l, run)
  {
    hide Setting;
    hide Secured;
    hide HttpsURL;
  }

  /** What a successful restore leaves. */
  ghost predicate RestoreDone(w0: World, w: World, c: string, d: string, snapDir: string, file: string) {
    SavedOf(w0, c).Present? && SavedOf(w, c).Present? &&
    var st, st' := SavedOf(w0, c).state, SavedOf(w, c).state;
    var done :=
      && Managed(st) && SameClaims(st, st')
      && (forall n | n in st.nodes :: Serving(w, n))
      && AllRestored(w, PlanOf(w0, st, d, snapDir, file), w0.clock)
      && (forall m | m in st.nodes && m.role.Datastore? :: FromSnapshot(w, m, QuorateIn(st, d), snapDir, file, w0.clock) && StartsRestored(w, m))
      && (Faithful(w0, st, d) ==> Faithful(w, st', d));
    done
  }

  lemma RebuiltFaithful(w0: World, w: World, st: ClusterState, st': ClusterState, plan: Plan, d: string)
    requires Rebuilt(w0, w, st.nodes, plan) && Shape(st, plan.c, d) && Faithful(w0, st, d)
    requires plan.members == WithRole(st.nodes, Datastore) && plan.domain == d && plan.mesh == EtcdMesh(plan.c, d, |plan.members|)
    requires QuorateBy(plan) == QuorateIn(st', d)
    requires st' == st.(nodes := st'.nodes) && Readdressed(st.nodes, st'.nodes)
    ensures Faithful(w, st', d)
  {
    hide EtcdMesh;
    hide EtcdCommand;
    hide Running;
    hide InPlace;
    hide TLSDir;
    hide QuorateBy;
    hide QuorateIn;
    ReaddressedRole(st.nodes, st'.nodes, Datastore);
    forall n' | n' in st'.nodes
      ensures InPlace(w, n', st', d)
    {
      var k :| 0 <= k < |st'.nodes| && st'.nodes[k] == n';
      RebuiltInPlace(w0, w, st, st', plan, d, k);
    }
  }

  lemma RebuiltInPlace(w0: World, w: World, st: ClusterState, st': ClusterState, plan: Plan, d: string, k: nat)
    requires Rebuilt(w0, w, st.nodes, plan) && Shape(st, plan.c, d) && Faithful(w0, st, d)
    requires plan.members == WithRole(st.nodes, Datastore) && plan.domain == d && plan.mesh == EtcdMesh(plan.c, d, |plan.members|)
    requires QuorateBy(plan) == QuorateIn(st', d)
    requires st' == st.(nodes := st'.nodes) && Readdressed(st.nodes, st'.nodes) && k < |st.nodes|
    ensures InPlace(w, st'.nodes[k], st', d)
  {
    hide InPlace;
    hide Running;
    hide EtcdMesh;
    hide EtcdCommand;
    hide Numbered;
    hide Owned;
    hide OwnedVolume;
    hide Distinct;
    hide Quorum;
    hide Fronted;
    hide QuorateBy;
    hide QuorateIn;
    var n, n' := st.nodes[k], st'.nodes[k];
    ReaddressedRole(st.nodes, st'.nodes, Datastore);
    SameNode(n, n');
    assert n in st.nodes && InPlace(w0, n, st, d);
    NumberedOwner(n, plan.c, d);
    if n.role.Datastore? {
      assert n in plan.members && Running(w, plan, n);
      MemberInPlace(w, st', n, n', plan, d);
    } else {
      InPlaceKept(w0, w, st, st', n, n', d);
    }
  }

  /** A member that runs as planned is what the record says. */
  lemma MemberInPlace(w: World, st: ClusterState, n: NodeInfo, n': NodeInfo, plan: Plan, d: string)
    requires Running(w, plan, n) && Bare(n) == Bare(n')
    requires n.role.Datastore? && st.clusterName == plan.c && plan.domain == d
    requires plan.mesh == EtcdMesh(plan.c, d, |WithRole(st.nodes, Datastore)|) && QuorateBy(plan) == QuorateIn(st, d)
    ensures InPlace(w, n', st, d)
  {
    hide EtcdMesh;
    hide EtcdCommand;
    hide RunsMember;
    hide QuorateBy;
    hide TLSDir;
    MemberKeys(At(w, n.id).value.launch, n, QuorateBy(plan), TLSDir(w.root, plan.c, n.name));
    SameNode(n, n');
  }

  lemma MemberKeys(l: Launch, n: NodeInfo, q: Quorate, dir: string)
    requires RunsMember(l, n.name, n.id, n.memory, q, dir)
    ensures TLSSource(l.volumes) == Some(dir)
  {
    hide TLSSource;
  }

  /** The plan's members are the record's. */
  lemma PlannedQuorate(w: World, st: ClusterState, st': ClusterState, d: string, snapDir: string, file: string)
    requires st' == st.(nodes := st'.nodes) && |WithRole(st'.nodes, Datastore)| == |WithRole(st.nodes, Datastore)|
    ensures QuorateBy(PlanOf(w, st, d, snapDir, file)) == QuorateIn(st, d) == QuorateIn(st', d)
  {
    hide EtcdMesh;
    hide VerifyArgs;
    hide ClientDir;
  }

  lemma SavedRestore(w0: World, w: World, w': World, st: ClusterState, st': ClusterState, plan: Plan, c: string, d: string, snapDir: string, file: string)
    requires SavedOf(w0, c) == Present(st) && Managed(st) && plan == PlanOf(w0, st, d, snapDir, file)
    requires Rebuilt(w0, w, st.nodes, plan) && Shape(st, c, d)
    requires st' == st.(nodes := st'.nodes) && Readdressed(st.nodes, st'.nodes)
    requires w' == Written(w, StatePath(w.root, c), Record(st'))
    ensures RestoreDone(w0, w', c, d, snapDir, file)
  {
    hide *;
    PlanFields(w0, st, d, snapDir, file);
    SameSettings(st, st', c, d);
    PlannedQuorate(w0, st, st', d, snapDir, file);
    RebuiltSaved(w0, w, st.nodes, plan, c, st');
    RebuiltOnSnapshot(w0, w', st, plan, d);
    if Faithful(w0, st, d) {
      RebuiltFaithful(w0, w, st, st', plan, d);
      FaithfulSaved(w, st', c, d, Record(st'));
    }
    NowRestored(w0, w', st, st', c, d, snapDir, file);
  }

  lemma PlanFields(w: World, st: ClusterState, d: string, snapDir: string, file: string)
    ensures
      var plan := PlanOf(w, st, d, snapDir, file);
      && plan.c == st.clusterName && plan.domain == d && plan.members == WithRole(st.nodes, Datastore)
      && plan.mesh == EtcdMesh(plan.c, d, |plan.members|) && plan.snapDir == snapDir && plan.file == file
  {
    hide EtcdMesh;
    hide VerifyArgs;
  }

  lemma SameSettings(st: ClusterState, st': ClusterState, c: string, d: string)
    requires Shape(st, c, d) && st' == st.(nodes := st'.nodes) && Readdressed(st.nodes, st'.nodes)
    ensures SameClaims(st, st') && st.clusterName == c && |WithRole(st'.nodes, Datastore)| == |WithRole(st.nodes, Datastore)|
  {
    hide Quorum;
    hide Fronted;
    hide AllNumbered;
    ReaddressedRole(st.nodes, st'.nodes, Datastore);
  }

  lemma NowRestored(w0: World, w: World, st: ClusterState, st': ClusterState, c: string, d: string, snapDir: string, file: string)
    requires SavedOf(w0, c) == Present(st) && SavedOf(w, c) == Present(st') && Managed(st) && SameClaims(st, st')
    requires (forall n | n in st.nodes :: Serving(w, n)) && AllRestored(w, PlanOf(w0, st, d, snapDir, file), w0.clock)
    requires forall m | m in st.nodes && m.role.Datastore? ::
               FromSnapshot(w, m, QuorateIn(st, d), snapDir, file, w0.clock) && StartsRestored(w, m)
    requires Faithful(w0, st, d) ==> Faithful(w, st', d)
    ensures RestoreDone(w0, w, c, d, snapDir, file)
  {
    hide SavedOf;
    hide Managed;
    hide SameClaims;
    hide Serving;
    hide AllRestored;
    hide PlanOf;
    hide FromSnapshot;
    hide StartsRestored;
    hide QuorateIn;
    hide Faithful;
  }

  lemma RebuiltSaved(w0: World, w: World, nodes: seq<NodeInfo>, plan: Plan, c: string, st': ClusterState)
    requires Rebuilt(w0, w, nodes, plan)
    ensures
      var w' := Written(w, StatePath(w.root, c), Record(st'));
      && AllRestored(w', plan, w0.clock) && (forall n | n in nodes :: Serving(w', n)) && SavedOf(w', c) == Present(st')
      && (forall m | m in plan.members :: Running(w', plan, m))
  {
    hide Running;
    hide Restored;
    hide SavedOf;
    SavedPresent(w, c, st');
    forall m | m in plan.members
      ensures Running(Written(w, StatePath(w.root, c), Record(st')), plan, m) && Restored(Written(w, StatePath(w.root, c), Record(st')), plan, m, w0.clock)
    {
      StillRunning(w, plan, m, StatePath(w.root, c), Record(st'), w0.clock);
    }
    var w' := Written(w, StatePath(w.root, c), Record(st'));
    assert forall x :: At(w', x) == At(w, x);
  }

  lemma SavedPresent(w: World, c: string, st: ClusterState)
    ensures SavedOf(Written(w, StatePath(w.root, c), Record(st)), c) == Present(st)
  {
  }

  lemma StillRunning(w: World, plan: Plan, m: NodeInfo, path: string, file: File, t: nat)
    ensures Running(w, plan, m) ==> Running(Written(w, path, file), plan, m)
    ensures Restored(w, plan, m, t) ==> Restored(Written(w, path, file), plan, m, t)
  {
    hide RunsMember;
    hide EtcdCommand;
    hide Unpacked;
    assert Vol(Written(w, path, file), EtcdVolumeName(m.name)) == Vol(w, EtcdVolumeName(m.name));
  }

  /** Every member runs on what was unpacked for it. */
  lemma RebuiltOnSnapshot(w0: World, w: World, st: ClusterState, plan: Plan, d: string)
    requires AllRestored(w, plan, w0.clock) && forall m | m in plan.members :: Running(w, plan, m)
    requires plan.members == WithRole(st.nodes, Datastore) && QuorateBy(plan) == QuorateIn(st, d)
    ensures forall m | m in st.nodes && m.role.Datastore? ::
              FromSnapshot(w, m, QuorateIn(st, d), plan.snapDir, plan.file, w0.clock) && StartsRestored(w, m)
  {
    hide FromSnapshot;
    hide StartsRestored;
    hide Running;
    hide QuorateBy;
    hide QuorateIn;
    forall m | m in st.nodes && m.role.Datastore?
      ensures FromSnapshot(w, m, QuorateIn(st, d), plan.snapDir, plan.file, w0.clock) && StartsRestored(w, m)
    {
      assert m in plan.members && Restored(w, plan, m, w0.clock);
      NowStartsRestored(w, plan, m, w0.clock);
    }
  }

  lemma NowStartsRestored(w: World, plan: Plan, m: NodeInfo, t: nat)
    requires Running(w, plan, m) && Restored(w, plan, m, t)
    ensures StartsRestored(w, m)
  {
    hide RunsMember;
    hide Unpacks;
    hide SameStart;
    hide EtcdCommand;
    hide QuorateBy;
    var content := Vol(w, EtcdVolumeName(m.name)).value.content;
    var l := ReadRun(content.args).value;
    UnpackedThenRuns(l, At(w, m.id).value.launch, m, QuorateBy(plan), plan.snapDir, plan.file, TLSDir(w.root, plan.c, m.name));
  }

  lemma PlanIs(w: World, st: ClusterState, c: string, d: string, snapDir: string, file: string)
    requires Shape(st, c, d)
    ensures
      var plan := PlanOf(w, st, d, snapDir, file);
      && Planned(plan, st.nodes, d) && plan.c == c && plan.cfg.datastoreTLSDir == ClientDir(w, c)
      && (plan.members != [] ==> plan.verify == VerifyArgs(plan.cfg, VerifyHelper(c), plan.members[0].id, ClientDir(w, c), MARKER))
  {
    ShapeUnique(st, c, d);
  }

  lemma EveryRestorePoint(p: Provisioner, w0: World, nodes: seq<NodeInfo>, plan: Plan)
    requires p.Valid() && p.watch == RestoringFrom(w0, nodes, plan)
    ensures forall k: nat | k < |p.trace| :: Restoring(w0, p.trace[k], nodes, plan)
  {
    forall k: nat | k < |p.trace|
      ensures Restoring(w0, p.trace[k], nodes, plan)
    {
      p.Then(k);
    }
  }

  method Open(p: Provisioner, c: string, snapDir: string, file: string) returns (r: Result<ClusterState>)
    requires Tidy(p.world) && Lawful(p.world, c, p.domain)
    modifies p
    ensures p.Valid() && p.scope == c && p.origin == p.world == old(p.world) && p.trace == [p.world]
    ensures r.Ok? ==> SavedOf(p.world, c) == Present(r.value)
    ensures SavedOf(p.world, c).Present? ==>
      var st := SavedOf(p.world, c).state;
      p.watch == RestoringFrom(p.world, st.nodes, PlanOf(p.world, st, p.domain, snapDir, file))
  {
    p.Begin(c, Anything());
    r := p.LoadState(c);
    if SavedOf(p.world, c).Present? {
      var st := SavedOf(p.world, c).state;
      var plan := PlanOf(p.world, st, p.domain, snapDir, file);
      AtFirst(p.world, st.nodes, plan);
      p.Begin(c, RestoringFrom(p.world, st.nodes, plan));
    }
  }

  /** Restore. snapDir and file name the snapshot; whether it can be read shows on the way. */
  method Restore(p: Provisioner, c: string, snapDir: string, file: string, force: bool) returns (r: Outcome)
    requires Tidy(p.world) && Lawful(p.world, c, p.domain)
    modifies p
    ensures p.Valid() && p.scope == c && p.origin == old(p.world)
    ensures SavedOf(old(p.world), c).Present? ==>
      var st := SavedOf(old(p.world), c).state;
      forall k: nat | k < |p.trace| ::
        Restoring(old(p.world), p.trace[k], st.nodes, PlanOf(old(p.world), st, p.domain, snapDir, file))
    ensures !SavedOf(old(p.world), c).Present? ==> p.trace == [old(p.world)]
    ensures !force ==> r.Fail? && p.world == old(p.world)
    ensures r.Pass? ==> RestoreDone(old(p.world), p.world, c, p.domain, snapDir, file)
  {
    var loaded := Open(p, c, snapDir, file);
    hide *;
    ghost var w0 := p.world;
    if loaded.Ok? {
      r := CheckedRestore(p, c, loaded.value, snapDir, file, force, w0);
    } else {
      r := Fail(loaded.error);
    }
    if SavedOf(w0, c).Present? {
      EveryRestorePoint(p, w0, SavedOf(w0, c).state.nodes, PlanOf(w0, SavedOf(w0, c).state, p.domain, snapDir, file));
    }
  }

  /** The checks Restore makes before it acts. */
  method CheckedRestore(p: Provisioner, c: string, st: ClusterState, snapDir: string, file: string, force: bool, ghost w0: World) returns (r: Outcome)
    requires p.Valid() && p.world == w0 && p.scope == c && SavedOf(w0, c) == Present(st)
    requires p.watch == RestoringFrom(w0, st.nodes, PlanOf(w0, st, p.domain, snapDir, file))
    modifies p`world, p`trace
    ensures p.Valid()
    ensures !force ==> r.Fail? && p.world == w0
    ensures r.Pass? ==> RestoreDone(w0, p.world, c, p.domain, snapDir, file)
  {
    var members := NodesWithRole(st.nodes, Datastore);
    if members == [] {
      return Fail(NoManagedDatastore);
    }
    var readable := p.Await();
    if readable.Fail? {
      return readable;
    }
    if !force {
      return Fail(NotForced);
    }
    r := RunRestore(p, c, st, snapDir, file, w0);
  }

  lemma Prepared(p: Provisioner, c: string, st: ClusterState, plan: Plan, w0: World)
    requires p.Valid() && p.world == w0 && p.scope == c && SavedOf(w0, c) == Present(st)
    requires p.watch == RestoringFrom(w0, st.nodes, plan)
    ensures Shape(st, c, p.domain) && Tidy(w0) && StopSafe(p.watch, st.nodes) && UniqueIds(st.nodes)
  {
    p.Now();
    ShapeUnique(st, c, p.domain);
    RestoringStopSafe(w0, st.nodes, plan);
  }

  lemma Staged(p: Provisioner, c: string, st: ClusterState, plan: Plan, w0: World)
    requires p.scope == c == plan.c && p.watch == RestoringFrom(w0, st.nodes, plan) && Planned(plan, st.nodes, p.domain) && Managed(st)
    ensures Stage(p, st.nodes, plan, w0) && Members(st.nodes, c, p.domain) && plan.members != []
  {
  }

  lemma MayRecord(p: Provisioner, st: ClusterState, st': ClusterState, plan: Plan, w0: World)
    requires p.Valid() && Stage(p, st.nodes, plan, w0)
    requires Shape(st, plan.c, p.domain) && st' == st.(nodes := st'.nodes) && Readdressed(st.nodes, st'.nodes)
    ensures Shape(st', plan.c, p.domain)
    ensures
      var path := StatePath(p.world.root, plan.c);
      p.watch(Written(p.world, path, Record(st'))) && p.watch(Written(p.world, path, Junk))
  {
    p.Now();
    ShapeReaddressed(st, st', plan.c, p.domain);
    RestoringWritten(w0, p.world, st.nodes, plan, StatePath(p.world.root, plan.c), Record(st'));
    RestoringWritten(w0, p.world, st.nodes, plan, StatePath(p.world.root, plan.c), Junk);
  }

  /** runRestore. */
  method RunRestore(p: Provisioner, c: string, st: ClusterState, snapDir: string, file: string, ghost w0: World) returns (r: Outcome)
    requires p.Valid() && p.world == w0 && p.scope == c && SavedOf(w0, c) == Present(st) && Managed(st)
    requires p.watch == RestoringFrom(w0, st.nodes, PlanOf(w0, st, p.domain, snapDir, file))
    modifies p`world, p`trace
    ensures p.Valid()
    ensures r.Pass? ==> RestoreDone(w0, p.world, c, p.domain, snapDir, file)
  {
    hide *;
    var plan := PlanOf(p.world, st, p.domain, snapDir, file);
    Prepared(p, c, st, plan, w0);
    PlanIs(w0, st, c, p.domain, snapDir, file);
    Staged(p, c, st, plan, w0);
    r := StopAll(p, st.nodes);
    if r.Fail? {
      return;
    }
    NowRestoring(p, st.nodes, plan, w0);
    StoppedQuiet(w0, p.world, st.nodes, plan);
    var rebuilt := Rebuild(p, st.nodes, plan, w0);
    if rebuilt.Err? {
      return Fail(rebuilt.error);
    }
    r := RecordRestore(p, c, st, rebuilt.value, plan, snapDir, file, w0);
  }

  lemma RecordFacts(p: Provisioner, c: string, st: ClusterState, plan: Plan, snapDir: string, file: string, w0: World)
    requires Stage(p, st.nodes, plan, w0) && plan == PlanOf(w0, st, p.domain, snapDir, file) && Shape(st, c, p.domain)
    ensures plan.c == c && p.scope == c && st.clusterName == c
  {
    hide AllNumbered;
    hide Distinct;
    hide Quorum;
    hide Fronted;
  }

  method RecordRestore(p: Provisioner, c: string, st: ClusterState, nodes: seq<NodeInfo>, plan: Plan, snapDir: string, file: string, ghost w0: World)
    returns (r: Outcome)
    requires p.Valid() && Stage(p, st.nodes, plan, w0) && plan == PlanOf(w0, st, p.domain, snapDir, file)
    requires Rebuilt(w0, p.world, st.nodes, plan) && Readdressed(st.nodes, nodes)
    requires SavedOf(w0, c) == Present(st) && Managed(st) && Shape(st, c, p.domain)
    modifies p`world, p`trace
    ensures p.Valid()
    ensures r.Pass? ==> RestoreDone(w0, p.world, c, p.domain, snapDir, file)
  {
    hide *;
    RecordFacts(p, c, st, plan, snapDir, file, w0);
    var st' := st.(nodes := nodes);
    ghost var w := p.world;
    MayRecord(p, st, st', plan, w0);
    r := p.SaveState(st');
    if r.Pass? {
      SavedRestore(w0, w, p.world, st, st', plan, c, p.domain, snapDir, file);
    }
  }
}
