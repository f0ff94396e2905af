/** What an operation leaves alone among a cluster's own containers and volumes. */
module Frames {
  import opened Types
  import opened Names
  import opened Recipes
  import opened Records
  import opened World
  import opened Fidelity

  const ROLES: set<Role> := {Server, Agent, Datastore, LB}

  predicate Keeps(o: Owner, keep: set<Role>) {
    o.Node? && o.role in keep
  }

  /** The nodes of the kept roles keep their containers and volumes. */
  ghost predicate Framed(w0: World, w: World, keep: set<Role>) {
    && w.root == w0.root && w0.clock <= w.clock
    && (forall id :: Keeps(Owned(id), keep) ==> SameRole(w0, w, id))
    && (forall v :: Keeps(OwnedVolume(v), keep) ==> SameVolume(w0, w, v))
  }

  lemma FramedSelf(w: World, keep: set<Role>)
    ensures Framed(w, w, keep)
  {
  }

  lemma FramedTrans(w0: World, w1: World, w2: World, keep: set<Role>)
    requires Framed(w0, w1, keep) && Framed(w1, w2, keep)
    ensures Framed(w0, w2, keep)
  {
    forall id | Keeps(Owned(id), keep)
      ensures SameRole(w0, w2, id)
    {
      assert SameRole(w0, w1, id) && SameRole(w1, w2, id);
    }
    forall v | Keeps(OwnedVolume(v), keep)
      ensures SameVolume(w0, w2, v)
    {
      assert SameVolume(w0, w1, v) && SameVolume(w1, w2, v);
    }
  }

  /** A step that changes at most one container and one volume of the kept roles, and those
      only in how the one runs and what the other holds. */
  lemma FramedStep(w0: World, w: World, w': World, keep: set<Role>, id: string, v: string)
    requires Framed(w0, w, keep)
    requires w'.root == w.root && w.clock <= w'.clock
    requires forall x :: x != id ==> At(w', x) == At(w, x)
    requires forall x :: x != v ==> Vol(w', x) == Vol(w, x)
    requires Keeps(Owned(id), keep) ==> SameRole(w, w', id)
    requires Keeps(OwnedVolume(v), keep) ==> SameVolume(w, w', v)
    ensures Framed(w0, w', keep)
  {
    forall x | Keeps(Owned(x), keep)
      ensures SameRole(w, w', x)
    {
      if x != id {
        assert At(w', x) == At(w, x);
      }
    }
    forall x | Keeps(OwnedVolume(x), keep)
      ensures SameVolume(w, w', x)
    {
      if x != v {
        assert Vol(w', x) == Vol(w, x);
      }
    }
    FramedTrans(w0, w, w', keep);
  }

  lemma SameRoleRuns(w: World, id: string, cmd: GuestCommand)
    ensures SameRole(w, Stopped(w, id), id)
    ensures SameRole(w, Started(w, id), id)
    ensures SameRole(w, Ran(w, id, cmd), id)
  {
  }

  /** Running, stopping and setting up containers. */
  lemma FramedSteps(w0: World, w: World, keep: set<Role>, id: string, cmd: GuestCommand)
    requires Framed(w0, w, keep)
    ensures Framed(w0, Stopped(w, id), keep)
    ensures Framed(w0, Started(w, id), keep)
    ensures Framed(w0, Ran(w, id, cmd), keep)
  {
    SameRoleRuns(w, id, cmd);
    FramedStep(w0, w, Stopped(w, id), keep, id, "");
    FramedStep(w0, w, Started(w, id), keep, id, "");
    FramedStep(w0, w, Ran(w, id, cmd), keep, id, "");
  }

  lemma FramedWritten(w0: World, w: World, keep: set<Role>, path: string, file: File)
    requires Framed(w0, w, keep)
    ensures Framed(w0, Written(w, path, file), keep)
  {
    FramedStep(w0, w, Written(w, path, file), keep, "", "");
  }

  lemma FramedRemoved(w0: World, w: World, keep: set<Role>, id: string)
    requires Framed(w0, w, keep) && !Keeps(Owned(id), keep)
    ensures Framed(w0, Removed(w, id), keep)
  {
    assert forall x :: x != id ==> At(Removed(w, id), x) == At(w, x);
    FramedStep(w0, w, Removed(w, id), keep, id, "");
  }

  /** A helper container and what it leaves in a volume. */
  lemma FramedHelper(w0: World, w: World, keep: set<Role>, args: seq<string>, l: Launch, content: Content, answers: bool)
    requires Framed(w0, w, keep) && l.names != [] && !Keeps(Owned(l.names[0]), keep)
    ensures Framed(w0, OneShot(w, args, l, content, answers), keep)
  {
    var w' := OneShot(w, args, l, content, answers);
    var v := match NamedVolume(l.volumes) case Some(name) => name case None => "";
    assert forall x :: x != l.names[0] ==> At(w', x) == At(w, x);
    assert forall x :: x != v ==> Vol(w', x) == Vol(w, x);
    assert SameVolume(w, w', v);
    FramedStep(w0, w, w', keep, l.names[0], v);
  }

  /** A new container or a new or deleted volume of a role that is not kept. */
  lemma FramedOthers(w0: World, w: World, keep: set<Role>, l: Launch, boots: bool, v: string, labels: seq<string>)
    requires Framed(w0, w, keep)
    requires l.names != [] ==> !Keeps(Owned(l.names[0]), keep)
    requires !Keeps(OwnedVolume(v), keep)
    ensures l.names != [] ==> Framed(w0, Placed(w, l, boots), keep)
    ensures Framed(w0, VolumeMade(w, v, labels), keep)
    ensures Framed(w0, VolumeGone(w, v), keep)
  {
    if l.names != [] {
      FramedStep(w0, w, Placed(w, l, boots), keep, l.names[0], "");
    }
    FramedStep(w0, w, VolumeMade(w, v, labels), keep, "", v);
    assert forall x :: x != v ==> Vol(VolumeGone(w, v), x) == Vol(w, x);
    FramedStep(w0, w, VolumeGone(w, v), keep, "", v);
  }

  /** A record whose nodes all keep their containers and volumes stays faithful. */
  lemma FramedFaithful(w0: World, w: World, st: ClusterState, st': ClusterState, d: string)
    requires Framed(w0, w, ROLES) && Shape(st, st.clusterName, d) && Faithful(w0, st, d) && SameClaims(st, st')
    requires Managed(st) ==> FileAt(w, TLSDir(w.root, st.clusterName, CLIENT)).Some?
    ensures Faithful(w, st', d)
  {
    forall n | n in st.nodes
      ensures SameRole(w0, w, n.id)
      ensures VolumeOf(st.clusterName, n.role, n.name).Some? ==> SameVolume(w0, w, VolumeOf(st.clusterName, n.role, n.name).value)
    {
      NumberedOwner(n, st.clusterName, d);
      assert n.role in ROLES;
    }
    FaithfulKept(w0, w, st, st', d);
  }
}
