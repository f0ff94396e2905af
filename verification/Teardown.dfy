/** Destroying a cluster (provider/apple/destroy.go): a pass over the recorded nodes, a sweep
    by label, and the state directory, collecting errors on the way. */
module Teardown {
  import opened Types
  import opened Text
  import opened Names
  import opened Recipes
  import opened Records
  import opened World
  import opened Runtime

  /** clusterLabelSelector. */
  function Selector(c: string): string { CLUSTER_KEY + c }

  /** What an item answers for the cluster label; a missing label reads as "". */
  function LabelText(item: Item): string {
    match item.cluster
    case Some(value) => value
    case None => ""
  }

  function Matching(items: seq<Item>, value: string): (names: seq<string>)
    ensures forall name :: name in names <==> exists item :: item in items && item.name == name && LabelText(item) == value
  {
    if items == [] then []
    else (if LabelText(items[0]) == value then [items[0].name] else []) + Matching(items[1..], value)
  }

  lemma SelectorValue(c: string)
    ensures Before(Selector(c), '=') + "=" == CLUSTER_KEY
    ensures Selector(c)[|Before(Selector(c), '=')| + 1..] == c
  {
    var key := "k3s.cluster.name";
    assert CLUSTER_KEY == key + "=";
    assert Selector(c) == key + ['='] + c;
    BeforeSeparator(key, '=', c);
  }

  lemma {:induction false} MatchingCat(a: seq<Item>, b: seq<Item>, value: string)
    ensures Matching(a + b, value) == Matching(a, value) + Matching(b, value)
  {
    if a == [] {
      assert a + b == b;
    } else {
      assert (a + b)[1..] == a[1..] + b;
      MatchingCat(a[1..], b, value);
    }
  }

  /** containersMatchingLabel and volumesMatchingLabel: the selector is cut at its first '='. */
  method MatchingLabel(items: seq<Item>, selector: string) returns (r: Result<seq<string>>)
    ensures r.Ok? <==> '=' in selector
    ensures forall c :: selector == Selector(c) ==> r == Ok(Matching(items, c))
  {
    var key := Before(selector, '=');
    if |key| == |selector| {
      assert selector == key;
      forall c
        ensures selector != Selector(c)
      {
        assert Selector(c)[16] == '=';
      }
      return Err(CliFailed);
    }
    assert selector[|key|] == '=';
    var value := selector[|key| + 1..];
    var names := [];
    for i := 0 to |items|
      invariant names == Matching(items[..i], value)
    {
      MatchingCat(items[..i], [items[i]], value);
      assert items[..i + 1] == items[..i] + [items[i]];
      if LabelText(items[i]) == value {
        names := names + [items[i].name];
      }
    }
    assert items[..|items|] == items;
    forall c | selector == Selector(c)
      ensures value == c
    {
      SelectorValue(c);
    }
    r := Ok(names);
  }

  /** Sweeping without a cluster name would take everything that carries no cluster label:
      only the guard on the empty name prevents it. */
  lemma EmptySelectorTakesUnlabelled(items: seq<Item>, name: string)
    ensures name in Matching(items, "") <==> Item(name, None) in items || Item(name, Some("")) in items
  {
    if Item(name, None) in items || Item(name, Some("")) in items {
      var item := if Item(name, None) in items then Item(name, None) else Item(name, Some(""));
      assert item in items && item.name == name && LabelText(item) == "";
    }
  }

  /** ClusterRef: a record that names the cluster and nothing else. */
  function ClusterRef(c: string): ClusterState {
    ClusterState(c, "", "", "", "", "", "", "", [])
  }

  /** LoadStateForDestroy: only a missing record falls back to the name. */
  method LoadStateForDestroy(p: Provisioner, c: string) returns (r: Result<ClusterState>)
    ensures r.Ok? ==> r.value == match SavedOf(p.world, c) case Present(st) => st case _ => ClusterRef(c)
    ensures SavedOf(p.world, c).Corrupt? ==> r.Err?
    ensures SavedOf(p.world, c).Missing? ==> r.Ok?
  {
    r := p.LoadState(c);
    if r == Err(NotFound) {
      return Ok(ClusterRef(c));
    }
  }

  /** The recorded-state pass. */
  method DestroyRecordedNodes(p: Provisioner, c: string, nodes: seq<NodeInfo>) returns (errs: seq<Error>)
    requires p.Valid() && p.watch == Anything() && p.scope == c
    requires nodes != [] ==> CleanText(c)
    requires AllNumbered(nodes, c, p.domain)
    modifies p`world, p`trace
    ensures p.Valid()
    ensures |errs| == 0 ==> forall n | n in nodes :: Gone(p.world, c, n)
  {
    hide *;
    errs := [];
    for i := 0 to |nodes|
      invariant p.Valid()
      invariant |errs| == 0 ==> forall n | n in nodes[..i] :: Gone(p.world, c, n)
    {
      MayDestroy(c, p.domain, nodes, i);
      var more := DestroyNode(p, c, nodes[i], nodes[..i]);
      errs := errs + more;
      assert nodes[..i + 1] == nodes[..i] + [nodes[i]];
    }
    assert nodes[..|nodes|] == nodes;
  }

  /** Neither the node's container nor its volume is left. */
  ghost predicate Gone(w: World, c: string, n: NodeInfo) {
    At(w, n.id).None? && (VolumeOf(c, n.role, n.name).Some? ==> Vol(w, VolumeOf(c, n.role, n.name).value).None?)
  }

  lemma MayDestroy(c: string, d: string, nodes: seq<NodeInfo>, i: nat)
    requires i < |nodes| && CleanText(c) && AllNumbered(nodes, c, d)
    ensures MayGo(c, nodes[i])
  {
    assert nodes[i] in nodes;
    NumberedOwner(nodes[i], c, d);
  }

  ghost predicate MayGo(c: string, n: NodeInfo) {
    && Owned(n.id).Of(c)
    && (VolumeOf(c, n.role, n.name).Some? ==> OwnedVolume(VolumeOf(c, n.role, n.name).value).Of(c))
  }

  lemma GoneStays(w: World, c: string, n: NodeInfo, id: string, v: string)
    requires Gone(w, c, n)
    ensures Gone(Stopped(w, id), c, n) && Gone(Removed(w, id), c, n) && Gone(VolumeGone(w, v), c, n)
  {
  }

  lemma AllGoneStay(w: World, c: string, nodes: seq<NodeInfo>, id: string, v: string)
    requires forall n | n in nodes :: Gone(w, c, n)
    ensures forall n | n in nodes :: Gone(Stopped(w, id), c, n)
    ensures forall n | n in nodes :: Gone(Removed(w, id), c, n)
    ensures forall n | n in nodes :: Gone(VolumeGone(w, v), c, n)
  {
    forall n | n in nodes
      ensures Gone(Stopped(w, id), c, n) && Gone(Removed(w, id), c, n) && Gone(VolumeGone(w, v), c, n)
    {
      GoneStays(w, c, n, id, v);
    }
  }

  /** The node's container, then the volume its role gives it; errors do not stop the rest. */
  method DestroyNode(p: Provisioner, c: string, node: NodeInfo, ghost others: seq<NodeInfo>) returns (errs: seq<Error>)
    requires p.Valid() && p.watch == Anything() && p.scope == c && MayGo(c, node)
    modifies p`world, p`trace
    ensures p.Valid()
    ensures |errs| == 0 ==> Gone(p.world, c, node)
    ensures (forall n | n in others :: Gone(old(p.world), c, n)) ==> forall n | n in others :: Gone(p.world, c, n)
  {
    errs := StopAndRemove(p, node.id);
    ghost var w := p.world;
    assert (forall n | n in others :: Gone(old(p.world), c, n)) ==> forall n | n in others :: Gone(w, c, n) by {
      if forall n | n in others :: Gone(old(p.world), c, n) {
        AllGoneStay(old(p.world), c, others, node.id, "");
        AllGoneStay(Stopped(old(p.world), node.id), c, others, node.id, "");
      }
    }
    var volume := VolumeOf(c, node.role, node.name);
    if volume.None? {
      return;
    }
    var deleted := p.VolumeDelete(volume.value);
    if deleted.Fail? {
      errs := errs + [deleted.error];
    }
    if forall n | n in others :: Gone(w, c, n) {
      AllGoneStay(w, c, others, "", volume.value);
    }
  }

  method StopAndRemove(p: Provisioner, id: string) returns (errs: seq<Error>)
    requires p.Valid() && p.watch == Anything() && Owned(id).Of(p.scope)
    modifies p`world, p`trace
    ensures p.Valid()
    ensures |errs| == 0 ==> At(p.world, id).None?
    ensures p.world in [old(p.world), Stopped(old(p.world), id), Removed(old(p.world), id), Removed(Stopped(old(p.world), id), id)]
  {
    errs := [];
    var stopped := p.Stop(id);
    if stopped.Fail? {
      errs := errs + [stopped.error];
    }
    var removed := p.Remove(id);
    if removed.Fail? {
      errs := errs + [removed.error];
    }
  }

  /** No container is new, and what is left keeps its label. */
  ghost predicate Fewer(w0: World, w: World) {
    forall id :: At(w, id).Some? ==> At(w0, id).Some? && At(w, id).value.cluster == At(w0, id).value.cluster
  }

  lemma FewerAfter(w0: World, w: World, id: string)
    requires Fewer(w0, w)
    ensures Fewer(w0, Stopped(w, id)) && Fewer(w0, Removed(w, id))
  {
    assert forall x :: At(Removed(w, id), x) == if x == id then None else At(w, x);
    assert forall x :: At(Stopped(w, id), x).Some? ==> At(w, x).Some? && At(Stopped(w, id), x).value.cluster == At(w, x).value.cluster;
  }

  /** sweepByLabel. */
  method SweepByLabel(p: Provisioner, c: string) returns (errs: seq<Error>)
    requires p.Valid() && p.watch == Anything() && p.scope == c
    modifies p`world, p`trace
    ensures p.Valid()
    ensures c != "" && |errs| == 0 ==> Swept(p.world, c)
    ensures c == "" ==> errs == [] && p.world == old(p.world)
  {
    if c == "" {
      return [];
    }
    errs := SweepContainers(p, c);
    ghost var w := p.world;
    ghost var clean := |errs| == 0;
    var more := SweepVolumes(p, c);
    errs := errs + more;
    assert clean ==> forall id :: At(w, id).Some? ==> At(w, id).value.cluster != Some(c);
  }

  /** No container and no volume with the cluster's label is left. */
  ghost predicate Swept(w: World, c: string) {
    && (forall id :: At(w, id).Some? ==> At(w, id).value.cluster != Some(c))
    && (forall v :: Vol(w, v).Some? ==> Vol(w, v).value.cluster != Some(c))
  }

  method SweepContainers(p: Provisioner, c: string) returns (errs: seq<Error>)
    requires p.Valid() && p.watch == Anything() && p.scope == c && c != ""
    modifies p`world, p`trace
    ensures p.Valid()
    ensures |errs| == 0 ==> forall id :: At(p.world, id).Some? ==> At(p.world, id).value.cluster != Some(c)
  {
    var items := p.ListContainers();
    if items.Err? {
      return [items.error];
    }
    var matched := MatchingLabel(items.value, Selector(c));
    ghost var w0 := p.world;
    ListedContainers(p, c, items.value);
    errs := RemoveContainers(p, matched.value);
    if |errs| == 0 {
      forall id | At(p.world, id).Some?
        ensures At(p.world, id).value.cluster != Some(c)
      {
      }
    }
  }

  ghost predicate NoneLeft(w: World, names: seq<string>, i: nat)
    requires i <= |names|
  {
    forall k: nat | k < i :: At(w, names[k]).None?
  }

  method RemoveContainers(p: Provisioner, names: seq<string>) returns (errs: seq<Error>)
    requires p.Valid() && p.watch == Anything()
    requires forall name | name in names :: Owned(name).Of(p.scope)
    modifies p`world, p`trace
    ensures p.Valid() && Fewer(old(p.world), p.world)
    ensures |errs| == 0 ==> NoneLeft(p.world, names, |names|)
  {
    ghost var w0 := p.world;
    assert Fewer(w0, w0) && NoneLeft(w0, names, 0);
    hide *;
    errs := [];
    for i := 0 to |names|
      invariant p.Valid() && Fewer(w0, p.world)
      invariant |errs| == 0 ==> NoneLeft(p.world, names, i)
    {
      var more := SweepContainer(p, names, i, w0);
      errs := errs + more;
    }
  }

  method SweepContainer(p: Provisioner, names: seq<string>, i: nat, ghost w0: World) returns (errs: seq<Error>)
    requires p.Valid() && p.watch == Anything() && i < |names| && Owned(names[i]).Of(p.scope) && Fewer(w0, p.world)
    modifies p`world, p`trace
    ensures p.Valid() && Fewer(w0, p.world)
    ensures |errs| == 0 && NoneLeft(old(p.world), names, i) ==> NoneLeft(p.world, names, i + 1)
  {
    FewerAfter(w0, p.world, names[i]);
    FewerAfter(w0, Stopped(p.world, names[i]), names[i]);
    NoneLeftAfter(p.world, names, i);
    NoneLeftAfter(Stopped(p.world, names[i]), names, i);
    errs := StopAndRemove(p, names[i]);
    OneMoreGone(p.world, names, i);
  }

  lemma NoneLeftAfter(w: World, names: seq<string>, i: nat)
    requires i < |names|
    ensures NoneLeft(w, names, i) ==> NoneLeft(Stopped(w, names[i]), names, i) && NoneLeft(Removed(w, names[i]), names, i)
  {
    assert forall x :: At(w, x).None? ==> At(Stopped(w, names[i]), x).None? && At(Removed(w, names[i]), x).None?;
  }

  lemma OneMoreGone(w': World, names: seq<string>, i: nat)
    requires i < |names|
    ensures NoneLeft(w', names, i) && At(w', names[i]).None? ==> NoneLeft(w', names, i + 1)
  {
  }

  /** What the sweep finds is the cluster's, and all of it. */
  lemma ListedContainers(p: Provisioner, c: string, items: seq<Item>)
    requires p.Valid() && p.scope == c && c != ""
    requires forall item :: item in items <==> At(p.world, item.name).Some? && At(p.world, item.name).value.cluster == item.cluster
    ensures forall name | name in Matching(items, c) :: Owned(name).Of(c)
    ensures forall id :: At(p.world, id).Some? && At(p.world, id).value.cluster == Some(c) ==> id in Matching(items, c)
  {
    p.Now();
    forall id | At(p.world, id).Some? && At(p.world, id).value.cluster == Some(c)
      ensures id in Matching(items, c)
    {
      assert Item(id, Some(c)) in items;
    }
  }

  method SweepVolumes(p: Provisioner, c: string) returns (errs: seq<Error>)
    requires p.Valid() && p.watch == Anything() && p.scope == c && c != ""
    modifies p`world, p`trace
    ensures p.Valid() && FewerVolumes(old(p.world), p.world)
    ensures |errs| == 0 ==> forall v :: Vol(p.world, v).Some? ==> Vol(p.world, v).value.cluster != Some(c)
  {
    var items := p.ListVolumes();
    if items.Err? {
      return [items.error];
    }
    var matched := MatchingLabel(items.value, Selector(c));
    ListedVolumes(p, c, items.value);
    errs := DeleteVolumes(p, matched.value);
    if |errs| == 0 {
      forall v | Vol(p.world, v).Some?
        ensures Vol(p.world, v).value.cluster != Some(c)
      {
      }
    }
  }

  /** Volumes may be gone; nothing else differs. */
  ghost predicate FewerVolumes(w0: World, w: World) {
    (forall id :: At(w, id) == At(w0, id)) && (forall v :: Vol(w, v).Some? ==> Vol(w0, v) == Vol(w, v))
  }

  lemma FewerVolumesAfter(w0: World, w: World, v: string)
    requires FewerVolumes(w0, w)
    ensures FewerVolumes(w0, VolumeGone(w, v))
  {
    assert forall id :: At(VolumeGone(w, v), id) == At(w, id);
    assert forall x :: Vol(VolumeGone(w, v), x) == if x == v then None else Vol(w, x);
  }

  ghost predicate NoVolumeLeft(w: World, names: seq<string>, i: nat)
    requires i <= |names|
  {
    forall k: nat | k < i :: Vol(w, names[k]).None?
  }

  method DeleteVolumes(p: Provisioner, names: seq<string>) returns (errs: seq<Error>)
    requires p.Valid() && p.watch == Anything()
    requires forall name | name in names :: OwnedVolume(name).Of(p.scope)
    modifies p`world, p`trace
    ensures p.Valid() && FewerVolumes(old(p.world), p.world)
    ensures |errs| == 0 ==> NoVolumeLeft(p.world, names, |names|)
  {
    ghost var w0 := p.world;
    assert FewerVolumes(w0, w0) && NoVolumeLeft(w0, names, 0);
    hide *;
    errs := [];
    for i := 0 to |names|
      invariant p.Valid() && FewerVolumes(w0, p.world)
      invariant |errs| == 0 ==> NoVolumeLeft(p.world, names, i)
    {
      var more := SweepVolume(p, names, i, w0);
      errs := errs + more;
    }
  }

  method SweepVolume(p: Provisioner, names: seq<string>, i: nat, ghost w0: World) returns (errs: seq<Error>)
    requires p.Valid() && p.watch == Anything() && i < |names| && OwnedVolume(names[i]).Of(p.scope) && FewerVolumes(w0, p.world)
    modifies p`world, p`trace
    ensures p.Valid() && FewerVolumes(w0, p.world)
    ensures |errs| == 0 && NoVolumeLeft(old(p.world), names, i) ==> NoVolumeLeft(p.world, names, i + 1)
  {
    FewerVolumesAfter(w0, p.world, names[i]);
    OneMoreVolumeGone(p.world, names, i);
    var deleted := p.VolumeDelete(names[i]);
    errs := if deleted.Fail? then [deleted.error] else [];
  }

  lemma OneMoreVolumeGone(w: World, names: seq<string>, i: nat)
    requires i < |names|
    ensures NoVolumeLeft(w, names, i) ==> NoVolumeLeft(VolumeGone(w, names[i]), names, i + 1)
  {
    assert forall x :: Vol(VolumeGone(w, names[i]), x) == if x == names[i] then None else Vol(w, x);
  }

  lemma ListedVolumes(p: Provisioner, c: string, items: seq<Item>)
    requires p.Valid() && p.scope == c && c != ""
    requires forall item :: item in items <==> Vol(p.world, item.name).Some? && Vol(p.world, item.name).value.cluster == item.cluster
    ensures forall name | name in Matching(items, c) :: OwnedVolume(name).Of(c)
    ensures forall v :: Vol(p.world, v).Some? && Vol(p.world, v).value.cluster == Some(c) ==> v in Matching(items, c)
  {
    p.Now();
    forall v | Vol(p.world, v).Some? && Vol(p.world, v).value.cluster == Some(c)
      ensures v in Matching(items, c)
    {
      assert Item(v, Some(c)) in items;
    }
  }

  /** Nothing of the cluster is left: no node container, no volume, no file. */
  ghost predicate NothingLeft(w: World, c: string) {
    && (forall id :: At(w, id).Some? ==> NodeCluster(Owned(id)) != Some(c))
    && (forall v :: Vol(w, v).Some? ==> NodeCluster(OwnedVolume(v)) != Some(c))
    && (forall path :: Under(path, w.root, c) ==> FileAt(w, path).None?)
  }

  /** Destroy, as the command runs it: whatever state the cluster was left in, a teardown that
      reports no error leaves nothing of it; with an error or not it touches nothing else. */
  method Destroy(p: Provisioner, c: string) returns (r: Outcome)
    requires c != "" && Tidy(p.world) && Lawful(p.world, c, p.domain)
    modifies p
    ensures p.Valid() && p.scope == c && p.origin == old(p.world)
    ensures r.Pass? ==> NothingLeft(p.world, c)
    ensures SavedOf(old(p.world), c).Corrupt? ==> r.Fail?
  {
    p.Begin(c, Anything());
    var loaded := LoadStateForDestroy(p, c);
    if loaded.Err? {
      return Fail(loaded.error);
    }
    var errs := DestroyRecordedNodes(p, c, loaded.value.nodes);
    var more := SweepByLabel(p, c);
    errs := errs + more;
    ghost var w := p.world;
    p.Now();
    var dir := p.RemoveDir(c);
    if dir.Fail? {
      errs := errs + [dir.error];
    }
    if |errs| > 0 {
      return Fail(errs[0]);
    }
    LeavesNothing(w, c);
    r := Pass;
  }

  lemma LeavesNothing(w: World, c: string)
    requires Marked(w, c) && Swept(w, c)
    ensures NothingLeft(DirGone(w, c), c)
  {
    hide Owned;
    hide OwnedVolume;
    var w' := DirGone(w, c);
    assert forall id :: At(w', id) == At(w, id);
    assert forall v :: Vol(w', v) == Vol(w, v);
  }
}
