/** The TLS bundle of a managed datastore (provider/apple/etcd_tls.go, create.go): which
    directories one CA generation is written to. */
module EtcdTLS {
  import opened Types
  import opened Names
  import opened Recipes
  import opened Ordering
  import opened Records
  import opened World
  import opened Runtime
  import opened Fidelity

  /** etcdMemberSANs: the names in a member's certificate. */
  function MemberSANs(member: string, d: string): seq<string> {
    [NodeFQDN(member, d), "localhost"]
  }

  /** Each URL of the recorded datastore endpoint names its member by a name in that member's
      certificate and in no other member's. */
  lemma EndpointNamesMembers(st: ClusterState, c: string, d: string, k: nat, j: nat)
    requires Shape(st, c, d) && k < |WithRole(st.nodes, Datastore)| && j < |WithRole(st.nodes, Datastore)|
    ensures
      var members := WithRole(st.nodes, Datastore);
      && st.datastoreEndpoint == Join(EtcdClientURLs(c, d, |members|), ",")
      && EtcdClientURLs(c, d, |members|)[k] == HttpsURL(members[k].id, ETCD_CLIENT_PORT)
      && (members[k].id in MemberSANs(members[j].name, d) <==> k == j)
  {
    hide Numbered;
    hide AllNumbered;
    hide Fronted;
    hide HttpsURL;
    hide NodeFQDN;
    hide EtcdName;
    hide EtcdClientURLs;
    hide Join;
    var members := WithRole(st.nodes, Datastore);
    RecordedMesh(st, c, d);
    assert members[k] in members && members[j] in members;
    MemberNamed(st, c, d, members[k]);
    MemberNamed(st, c, d, members[j]);
    if members[k].id == members[j].id {
      FQDNInjective(members[k].name, members[j].name, d);
      MemberNumbers(c, k + 1, j + 1);
    }
  }

  lemma MemberNumbers(c: string, i: nat, j: nat)
    requires EtcdName(c, i) == EtcdName(c, j)
    ensures i == j
  {
    NodeNameInjective(c, Datastore, i, c, Datastore, j);
  }

  lemma MemberNamed(st: ClusterState, c: string, d: string, m: NodeInfo)
    requires Shape(st, c, d) && m in WithRole(st.nodes, Datastore)
    ensures m.id == NodeFQDN(m.name, d) != "localhost"
  {
    assert m in st.nodes && Numbered(m, c, d);
    assert '.' !in "localhost";
    assert m.id[|m.name|] == '.';
  }

  /** existingDatastoreTLSDir. */
  function ClientDir(w: World, c: string): string {
    if FileAt(w, TLSDir(w.root, c, CLIENT)).Some? then TLSDir(w.root, c, CLIENT) else ""
  }

  lemma ClientPath(root: string, c: string)
    requires HostPath(root) && CleanText(c)
    ensures HostPath(TLSDir(root, c, CLIENT))
  {
    assert ':' !in "etcd-tls" + "/" + CLIENT;
    DirIsHostPath(root, c, "etcd-tls" + "/" + CLIENT);
  }

  lemma MemberDir(root: string, c: string, m: NodeInfo, d: string)
    requires HostPath(root) && CleanText(c) && Numbered(m, c, d)
    ensures HostPath(TLSDir(root, c, m.name))
  {
    NumberedOwner(m, c, d);
    CleanPath(m.name);
    DirIsHostPath(root, c, "etcd-tls" + "/" + m.name);
  }

  lemma CleanPath(name: string)
    requires CleanText(name)
    ensures ':' !in "etcd-tls" + "/" + name
  {
    assert !NameChar(':');
  }

  /** Writing files other than a record cannot break p. */
  ghost predicate FilesFree(p: World -> bool) {
    forall w: World, path: string, file: File {:trigger Written(w, path, file)} :: p(w) && !file.Record? ==> p(Written(w, path, file))
  }

  /** Only bundles were written. */
  ghost predicate OnlyBundles(w0: World, w: World, c: string) {
    && w.containers == w0.containers && w.volumes == w0.volumes && w.answered == w0.answered
    && w.root == w0.root && w0.clock <= w.clock && w.lease == w0.lease
    && FileAt(w, StatePath(w.root, c)) == FileAt(w0, StatePath(w.root, c))
    && forall path :: FileAt(w0, path).Some? ==> FileAt(w, path).Some?
  }

  /** The directory holds generation g. */
  ghost predicate Holds(w: World, c: string, who: string, g: nat) {
    FileAt(w, TLSDir(w.root, c, who)) == Some(Keys(g))
  }

  lemma BundleApart(root: string, c: string, who: string)
    ensures TLSDir(root, c, who) != StatePath(root, c)
    ensures Under(TLSDir(root, c, who), root, c)
  {
    var front := ClusterDir(root, c) + "/";
    assert TLSDir(root, c, who)[|front|] == 'e';
    assert StatePath(root, c)[|front|] == 's';
  }

  lemma BundleWritten(w0: World, w: World, c: string, who: string, g: nat, f: File)
    requires OnlyBundles(w0, w, c) && (f == Keys(g) || f == Junk)
    ensures
      var w' := Written(w, TLSDir(w.root, c, who), f);
      && OnlyBundles(w0, w', c)
      && (f == Keys(g) ==> Holds(w', c, who, g) && forall other | Holds(w, c, other, g) :: Holds(w', c, other, g))
  {
    BundleApart(w.root, c, who);
    var w' := Written(w, TLSDir(w.root, c, who), f);
    assert forall path :: FileAt(w', path) == if path == TLSDir(w.root, c, who) then Some(f) else FileAt(w, path);
  }

  /** deliverEtcdTLS: one fresh generation into every member's directory, in any order, and
      then into the clients'. */
  method DeliverTLS(p: Provisioner, c: string, members: set<string>) returns (r: Result<nat>)
    requires p.Valid() && p.scope == c && FilesFree(p.watch)
    modifies p`world, p`trace
    ensures p.Valid() && OnlyBundles(old(p.world), p.world, c)
    ensures r.Ok? ==>
      && old(p.world).clock <= r.value
      && (forall who | who in members :: Holds(p.world, c, who, r.value)) && Holds(p.world, c, CLIENT, r.value)
    ensures r.Err? ==> r.error == CliFailed
  {
    var g := p.world.clock;
    var todo := members;
    ghost var w0 := p.world;
    while todo != {}
      invariant p.Valid() && OnlyBundles(w0, p.world, c) && todo <= members
      invariant forall who | who in members - todo :: Holds(p.world, c, who, g)
    {
      var who :| who in todo;
      var written := WriteBundle(p, c, who, g, w0, members - todo);
      if written.Fail? {
        return Err(written.error);
      }
      todo := todo - {who};
    }
    var written := WriteBundle(p, c, CLIENT, g, w0, members);
    if written.Fail? {
      return Err(written.error);
    }
    r := Ok(g);
  }

  method WriteBundle(p: Provisioner, c: string, who: string, g: nat, ghost w0: World, ghost done: set<string>) returns (r: Outcome)
    requires p.Valid() && p.scope == c && FilesFree(p.watch) && OnlyBundles(w0, p.world, c) && g <= p.world.clock
    requires forall x | x in done :: Holds(p.world, c, x, g)
    modifies p`world, p`trace
    ensures p.Valid() && OnlyBundles(w0, p.world, c)
    ensures r.Pass? ==> Holds(p.world, c, who, g) && forall x | x in done :: Holds(p.world, c, x, g)
    ensures r.Fail? ==> r.error == CliFailed
  {
    p.Now();
    BundleApart(p.world.root, c, who);
    BundleWritten(w0, p.world, c, who, g, Keys(g));
    BundleWritten(w0, p.world, c, who, g, Junk);
    r := p.Write(TLSDir(p.world.root, c, who), Keys(g));
  }

  /** Saving a record does not make a faithful one less so. */
  lemma FaithfulSaved(w: World, st: ClusterState, c: string, d: string, file: File)
    requires Faithful(w, st, d) && st.clusterName == c
    ensures Faithful(Written(w, StatePath(w.root, c), file), st, d)
  {
    var w' := Written(w, StatePath(w.root, c), file);
    BundleApart(w.root, c, CLIENT);
    assert forall x :: At(w', x) == At(w, x);
    assert forall v :: Vol(w', v) == Vol(w, v);
    forall n | n in st.nodes
      ensures InPlace(w', n, st, d)
    {
      assert InPlace(w, n, st, d);
    }
  }
}
