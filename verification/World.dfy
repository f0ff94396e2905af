/** The container runtime and the state directory as the launcher sees them
    (provider/apple/container.go, state.go): one world of containers, volumes and files, and
    what each CLI call or file operation makes of it. */
module World {
  import opened Types
  import opened Text
  import opened Names
  import opened Recipes
  import opened Records

  // ---------------------------------------------------------------------------------------
  // The world
  // ---------------------------------------------------------------------------------------

  /** What the launcher runs inside a container. */
  datatype GuestCommand =
    | Remount | ShareRoot | NoOffload | IPForward
    | ClearCerts | QuorumHealth | WriteHosts(entries: string)

  /** The four commands of enableIPForward. */
  const FORWARDING: set<GuestCommand> := {Remount, ShareRoot, NoOffload, IPForward}

  /** What a volume holds: nothing yet, what a one-shot container with this vector left
      there, or the remains of one that failed. */
  datatype Content = Blank | Left(args: seq<string>) | Torn

  datatype Volume = Volume(cluster: Option<string>, born: nat, content: Content)

  /** A container. made and booted are the times of its run and of its last boot, mount the
      birth time of the volume it was run on, ca the TLS generation it read when it booted,
      config the load-balancer file it read then, did the commands run in it since. */
  datatype Container = Container(
    launch: Launch,
    cluster: Option<string>,
    volume: Option<string>,
    mount: Option<nat>,
    running: bool,
    ready: bool,
    did: set<GuestCommand>,
    addr: Addr,
    made: nat,
    booted: nat,
    ca: Option<nat>,
    config: Option<string>)

  /** A file, or a directory of keys: TLS keys of one generation, a text, a cluster record, or
      what an interrupted write leaves. */
  datatype File = Keys(generation: nat) | Page(text: string) | Record(state: ClusterState) | Junk

  /** root is the state directory; answered holds, for each one-shot vector that printed
      something, the last time it did; retold holds, for each server that was told to reseal its
      cluster's bootstrap data under a new token, the command it was told with; lease gives the
      address DHCP hands to a container booted at a time, and may be any function. */
  datatype World = World(
    root: string,
    containers: map<string, Container>,
    volumes: map<string, Volume>,
    files: map<string, File>,
    answered: map<seq<string>, nat>,
    retold: map<string, seq<string>>,
    clock: nat,
    lease: nat -> Addr)

  function At(w: World, id: string): Option<Container> {
    if id in w.containers then Some(w.containers[id]) else None
  }

  function Vol(w: World, v: string): Option<Volume> {
    if v in w.volumes then Some(w.volumes[v]) else None
  }

  function FileAt(w: World, path: string): Option<File> {
    if path in w.files then Some(w.files[path]) else None
  }

  predicate Up(w: World, id: string) {
    At(w, id).Some? && At(w, id).value.running
  }

  /** The forwarding setup was done since the container last booted. */
  predicate Armed(w: World, id: string) {
    At(w, id).Some? && FORWARDING <= At(w, id).value.did
  }

  // ---------------------------------------------------------------------------------------
  // The state directory
  // ---------------------------------------------------------------------------------------

  function ClusterDir(root: string, c: string): string { root + "/" + c }

  function InDir(root: string, c: string, rest: string): string { ClusterDir(root, c) + "/" + rest }

  predicate Under(path: string, root: string, c: string) { ClusterDir(root, c) + "/" <= path }

  function StatePath(root: string, c: string): string { InDir(root, c, "state.json") }

  function ConfigDir(root: string, c: string): string { InDir(root, c, "lb") }

  function KubeconfigPath(root: string, c: string): string { InDir(root, c, "kubeconfig") }

  /** Where k3s writes its own kubeconfig, through the mount of the cluster's directory. */
  function K3sConfigPath(root: string, c: string): string { InDir(root, c, "k3s.yaml") }

  /** Where the bundle of one etcd member, or of the datastore clients, lies. */
  function TLSDir(root: string, c: string, who: string): string { InDir(root, c, "etcd-tls" + "/" + who) }

  const CLIENT := "client"

  datatype Saved = Missing | Corrupt | Present(state: ClusterState)

  function SavedOf(w: World, c: string): Saved {
    match FileAt(w, StatePath(w.root, c))
    case None => Missing
    case Some(Record(st)) => Present(st)
    case Some(_) => Corrupt
  }

  lemma {:induction false} FirstSlash(a: string, b: string, x: string, y: string)
    requires '/' !in a && '/' !in b && a + "/" + x == b + "/" + y
    ensures a == b
  {
    BeforeSeparator(a, '/', x);
    BeforeSeparator(b, '/', y);
    assert a + "/" + x == a + ['/'] + x && b + "/" + y == b + ['/'] + y;
  }

  /** Clusters do not share files. */
  lemma DirsApart(root: string, c: string, c': string, rest: string)
    requires CleanText(c) && CleanText(c') && Under(InDir(root, c', rest), root, c)
    ensures c == c'
  {
    var path := InDir(root, c', rest);
    var x := path[|ClusterDir(root, c) + "/"|..];
    assert path == ClusterDir(root, c) + "/" + x;
    assert !NameChar('/');
    assert path[|root| + 1..] == c' + "/" + rest;
    assert path[|root| + 1..] == c + "/" + x;
    FirstSlash(c, c', x, rest);
  }

  lemma InUnder(root: string, c: string, rest: string)
    ensures Under(InDir(root, c, rest), root, c)
  {
  }

  lemma DirIsHostPath(root: string, c: string, rest: string)
    requires HostPath(root) && CleanText(c) && ':' !in rest
    ensures HostPath(InDir(root, c, rest)) && HostPath(ClusterDir(root, c))
  {
    assert !NameChar(':');
  }

  // ---------------------------------------------------------------------------------------
  // Effects
  // ---------------------------------------------------------------------------------------

  function With(w: World, id: string, a: Container): World {
    w.(containers := w.containers[id := a])
  }

  function Tick(w: World): World {
    w.(clock := w.clock + 1)
  }

  /** The TLS generation a booting container reads. */
  function Loaded(w: World, volumes: seq<string>): Option<nat> {
    match TLSSource(volumes)
    case None => None
    case Some(dir) =>
      match FileAt(w, dir)
      case Some(Keys(g)) => Some(g)
      case _ => None
  }

  /** The load-balancer file a booting container reads. */
  function Configured(w: World, volumes: seq<string>): Option<string> {
    match MountedAt(volumes, LB_CONFIG_MOUNT)
    case None => None
    case Some(dir) =>
      match FileAt(w, dir)
      case Some(Page(text)) => Some(text)
      case _ => None
  }

  function Booted(w: World, a: Container): Container {
    a.(running := true, ready := false, did := {}, addr := w.lease(w.clock), booted := w.clock,
       ca := Loaded(w, a.launch.volumes), config := Configured(w, a.launch.volumes))
  }

  /** The container a `run` creates, before it boots. */
  function Made(w: World, l: Launch): Container {
    var volume := NamedVolume(l.volumes);
    var mount := if volume.Some? && volume.value in w.volumes then Some(w.volumes[volume.value].born) else None;
    Container(l, LabelValue(l.labels, CLUSTER_KEY), volume, mount, false, false, {}, "", w.clock, w.clock, None, None)
  }

  function Placed(w: World, l: Launch, boots: bool): World
    requires l.names != []
  {
    var a := Made(w, l);
    Tick(With(w, l.names[0], if boots then Booted(w, a) else a))
  }

  /** What a one-shot container leaves: itself, stopped, its vector in the volume it mounts,
      and its answer. */
  function OneShot(w: World, args: seq<string>, l: Launch, content: Content, answers: bool): World
    requires l.names != []
  {
    var v := NamedVolume(l.volumes);
    var w' := With(w, l.names[0], Made(w, l));
    Tick(w'.(volumes := if v.Some? && v.value in w.volumes then w.volumes[v.value := w.volumes[v.value].(content := content)] else w.volumes,
             answered := if answers then w.answered[args := w.clock] else w.answered))
  }

  function Stopped(w: World, id: string): World {
    if id in w.containers then With(w, id, w.containers[id].(running := false, ready := false)) else w
  }

  /** A start boots a stopped container and leaves a running one as it is. */
  function Started(w: World, id: string): World {
    if id in w.containers && !w.containers[id].running then Tick(With(w, id, Booted(w, w.containers[id]))) else w
  }

  function Removed(w: World, id: string): World {
    w.(containers := w.containers - {id})
  }

  function Ran(w: World, id: string, cmd: GuestCommand): World {
    if id in w.containers then With(w, id, w.containers[id].(did := w.containers[id].did + {cmd})) else w
  }

  function Retold(w: World, id: string, args: seq<string>): World {
    w.(retold := w.retold[id := args])
  }

  function Readied(w: World, id: string, ready: bool): World {
    if id in w.containers then With(w, id, w.containers[id].(ready := ready)) else w
  }

  function VolumeMade(w: World, v: string, labels: seq<string>): World {
    Tick(w.(volumes := w.volumes[v := Volume(LabelValue(labels, CLUSTER_KEY), w.clock, Blank)]))
  }

  function VolumeGone(w: World, v: string): World {
    w.(volumes := w.volumes - {v})
  }

  function Written(w: World, path: string, file: File): World {
    Tick(w.(files := w.files[path := file]))
  }

  function DirGone(w: World, c: string): World {
    w.(files := map path | path in w.files && !Under(path, w.root, c) :: w.files[path])
  }

  // ---------------------------------------------------------------------------------------
  // What every world keeps
  // ---------------------------------------------------------------------------------------

  function NodeCluster(o: Owner): Option<string> {
    match o
    case Node(c, _) => Some(c)
    case _ => None
  }

  /** The times are past. */
  ghost predicate TidyContainer(a: Container, clock: nat) {
    && a.made < clock && a.booted < clock
    && (a.mount.Some? ==> a.mount.value < clock)
    && (a.ca.Some? ==> a.ca.value < clock)
  }

  ghost predicate TidyFile(f: File, clock: nat) {
    f.Keys? ==> f.generation < clock
  }

  /** What is true of every world: all times in it are past. */
  ghost predicate Tidy(w: World) {
    && HostPath(w.root)
    && (forall id :: At(w, id).Some? ==> TidyContainer(At(w, id).value, w.clock))
    && (forall v :: Vol(w, v).Some? ==> Vol(w, v).value.born < w.clock)
    && (forall path :: FileAt(w, path).Some? ==> TidyFile(FileAt(w, path).value, w.clock))
    && (forall args | args in w.answered :: w.answered[args] < w.clock)
  }

  /** Nothing outside cluster c differs between the two worlds. */
  ghost predicate Untouched(c: string, w0: World, w: World) {
    && (forall id :: !Owned(id).Of(c) ==> At(w, id) == At(w0, id))
    && (forall v :: !OwnedVolume(v).Of(c) ==> Vol(w, v) == Vol(w0, v))
    && (forall path :: !Under(path, w0.root, c) ==> FileAt(w, path) == FileAt(w0, path))
    && w.root == w0.root && w.lease == w0.lease
    && w0.clock <= w.clock
  }

  /** What is named for cluster c carries the label its name calls for, and what is labelled
      for it is named for it. */
  predicate Agrees(mark: Option<string>, o: Owner, c: string) {
    (o.Of(c) ==> mark == NodeCluster(o)) && (mark == Some(c) ==> NodeCluster(o) == Some(c))
  }

  /** A container agrees, and no member or load balancer of the cluster has ever been set up
      for forwarding. */
  ghost predicate MarkedContainer(a: Container, o: Owner, c: string) {
    Agrees(a.cluster, o, c) && (o.Of(c) && o.Node? && !o.role.IsK3s() ==> a.did !! FORWARDING)
  }

  /** The names and labels of cluster c agree; nothing is asked of the rest of the host. */
  ghost predicate Marked(w: World, c: string) {
    && (forall id :: At(w, id).Some? ==> MarkedContainer(At(w, id).value, Owned(id), c))
    && (forall v :: Vol(w, v).Some? ==> Agrees(Vol(w, v).value.cluster, OwnedVolume(v), c))
  }

  /** Containers that are neither named nor labelled for the cluster are no concern of it. */
  lemma Strangers(w: World, c: string, id: string, a: Container)
    requires !Owned(id).Of(c) && a.cluster != Some(c)
    ensures Marked(w, c) ==> Marked(With(w, id, a), c)
  {
    assert forall x :: At(With(w, id, a), x) == if x == id then Some(a) else At(w, x);
    assert forall v :: Vol(With(w, id, a), v) == Vol(w, v);
  }

  /** The saved record of a cluster, if it can be read, is well shaped. */
  ghost predicate Recorded(w: World, c: string, d: string) {
    SavedOf(w, c).Present? ==> Shape(SavedOf(w, c).state, c, d)
  }

  /** What every operation on cluster c relies on and keeps. */
  ghost predicate Lawful(w: World, c: string, d: string) {
    Recorded(w, c, d) && Marked(w, c)
  }

  /** One step of an operation on c: tidy, lawful, and nothing else touched. */
  ghost predicate Kept(c: string, d: string, w0: World, w: World) {
    Untouched(c, w0, w) && Tidy(w) && Lawful(w, c, d)
  }

  lemma KeptTrans(c: string, d: string, w0: World, w1: World, w2: World)
    requires Kept(c, d, w0, w1) && Kept(c, d, w1, w2)
    ensures Kept(c, d, w0, w2)
  {
  }

  lemma KeptSelf(c: string, d: string, w: World)
    requires Tidy(w) && Lawful(w, c, d)
    ensures Kept(c, d, w, w)
  {
  }

  /** Changing one container of the cluster. */
  lemma WithKept(c: string, d: string, w: World, id: string, a: Container, ticks: bool)
    requires Tidy(w) && Lawful(w, c, d) && Owned(id).Of(c)
    requires TidyContainer(a, if ticks then w.clock + 1 else w.clock) && MarkedContainer(a, Owned(id), c)
    ensures Kept(c, d, w, if ticks then Tick(With(w, id, a)) else With(w, id, a))
  {
    hide Owned;
    hide OwnedVolume;
    hide Shape;
    hide Under;
    var w' := if ticks then Tick(With(w, id, a)) else With(w, id, a);
    assert forall x :: At(w', x) == if x == id then Some(a) else At(w, x);
    SameRest(c, d, w, w');
  }

  /** Worlds that differ in containers and time only. */
  lemma SameRest(c: string, d: string, w: World, w': World)
    requires Tidy(w) && Lawful(w, c, d)
    requires w'.root == w.root && w'.volumes == w.volumes && w'.files == w.files && w'.answered == w.answered
    requires w.clock <= w'.clock
    ensures forall v :: Vol(w', v) == Vol(w, v) && (Vol(w', v).Some? ==> Vol(w', v).value.born < w'.clock)
    ensures forall path :: FileAt(w', path) == FileAt(w, path) && (FileAt(w', path).Some? ==> TidyFile(FileAt(w', path).value, w'.clock))
    ensures Recorded(w', c, d)
  {
    hide Owned;
    hide OwnedVolume;
    hide Shape;
    hide Under;
    assert FileAt(w', StatePath(w.root, c)) == FileAt(w, StatePath(w.root, c));
  }

  lemma LoadedPast(w: World, volumes: seq<string>)
    requires Tidy(w)
    ensures Loaded(w, volumes).Some? ==> Loaded(w, volumes).value < w.clock
  {
  }

  lemma BootedTidy(w: World, a: Container)
    requires Tidy(w) && TidyContainer(a, w.clock + 1)
    ensures TidyContainer(Booted(w, a), w.clock + 1)
  {
    LoadedPast(w, a.launch.volumes);
  }

  lemma MadeTidy(w: World, l: Launch)
    requires Tidy(w)
    ensures TidyContainer(Made(w, l), w.clock + 1)
  {
    var v := NamedVolume(l.volumes);
    if v.Some? && v.value in w.volumes {
      assert Vol(w, v.value).Some?;
    }
  }

  lemma PlacedKept(c: string, d: string, w: World, l: Launch, boots: bool)
    requires Tidy(w) && Lawful(w, c, d)
    requires l.names != [] && Owned(l.names[0]).Of(c) && LabelValue(l.labels, CLUSTER_KEY) == NodeCluster(Owned(l.names[0]))
    ensures Kept(c, d, w, Placed(w, l, boots))
  {
    MadeTidy(w, l);
    BootedTidy(w, Made(w, l));
    WithKept(c, d, w, l.names[0], if boots then Booted(w, Made(w, l)) else Made(w, l), true);
  }

  lemma StoppedKept(c: string, d: string, w: World, id: string)
    requires Tidy(w) && Lawful(w, c, d) && Owned(id).Of(c)
    ensures Kept(c, d, w, Stopped(w, id))
  {
    if id in w.containers {
      assert At(w, id).Some?;
      WithKept(c, d, w, id, w.containers[id].(running := false, ready := false), false);
    }
  }

  lemma StartedKept(c: string, d: string, w: World, id: string)
    requires Tidy(w) && Lawful(w, c, d) && Owned(id).Of(c)
    ensures Kept(c, d, w, Started(w, id))
  {
    if id in w.containers && !w.containers[id].running {
      assert At(w, id).Some?;
      BootedTidy(w, w.containers[id]);
      WithKept(c, d, w, id, Booted(w, w.containers[id]), true);
    }
  }

  lemma RemovedKept(c: string, d: string, w: World, id: string)
    requires Tidy(w) && Lawful(w, c, d) && Owned(id).Of(c)
    ensures Kept(c, d, w, Removed(w, id))
  {
    var w' := Removed(w, id);
    assert forall x :: At(w', x) == if x == id then None else At(w, x);
    SameRest(c, d, w, w');
  }

  lemma RanKept(c: string, d: string, w: World, id: string, cmd: GuestCommand)
    requires Tidy(w) && Lawful(w, c, d) && Owned(id).Of(c)
    requires cmd in FORWARDING ==> Owned(id).Node? && Owned(id).role.IsK3s()
    ensures Kept(c, d, w, Ran(w, id, cmd))
  {
    if id in w.containers {
      assert At(w, id).Some?;
      WithKept(c, d, w, id, w.containers[id].(did := w.containers[id].did + {cmd}), false);
    }
  }

  lemma RetoldKept(c: string, d: string, w: World, id: string, args: seq<string>)
    requires Tidy(w) && Lawful(w, c, d) && Owned(id).Of(c)
    ensures Kept(c, d, w, Retold(w, id, args))
  {
    var w' := Retold(w, id, args);
    assert forall x :: At(w', x) == At(w, x);
    SameRest(c, d, w, w');
  }

  lemma ReadiedKept(c: string, d: string, w: World, id: string, ready: bool)
    requires Tidy(w) && Lawful(w, c, d) && Owned(id).Of(c)
    ensures Kept(c, d, w, Readied(w, id, ready))
  {
    if id in w.containers {
      assert At(w, id).Some?;
      WithKept(c, d, w, id, w.containers[id].(ready := ready), false);
    }
  }

  /** Changing one volume of the cluster. */
  lemma VolumesKept(c: string, d: string, w: World, w': World, v: string)
    requires Tidy(w) && Lawful(w, c, d) && OwnedVolume(v).Of(c)
    requires w' == w.(volumes := w'.volumes, clock := w'.clock) && w.clock <= w'.clock
    requires forall x :: x != v ==> Vol(w', x) == Vol(w, x)
    requires Vol(w', v).Some? ==> Vol(w', v).value.born < w'.clock && Agrees(Vol(w', v).value.cluster, OwnedVolume(v), c)
    ensures Kept(c, d, w, w')
  {
    hide Owned;
    hide OwnedVolume;
    hide Shape;
    hide Under;
    assert forall x :: At(w', x) == At(w, x);
    assert forall path :: FileAt(w', path) == FileAt(w, path);
  }

  lemma VolumeMadeKept(c: string, d: string, w: World, v: string, labels: seq<string>)
    requires Tidy(w) && Lawful(w, c, d) && OwnedVolume(v).Of(c)
    requires LabelValue(labels, CLUSTER_KEY) == NodeCluster(OwnedVolume(v))
    ensures Kept(c, d, w, VolumeMade(w, v, labels))
  {
    VolumesKept(c, d, w, VolumeMade(w, v, labels), v);
  }

  lemma VolumeGoneKept(c: string, d: string, w: World, v: string)
    requires Tidy(w) && Lawful(w, c, d) && OwnedVolume(v).Of(c)
    ensures Kept(c, d, w, VolumeGone(w, v))
  {
    VolumesKept(c, d, w, VolumeGone(w, v), v);
  }

  lemma FilledKept(c: string, d: string, w: World, v: string, content: Content)
    requires Tidy(w) && Lawful(w, c, d) && OwnedVolume(v).Of(c) && v in w.volumes
    ensures Kept(c, d, w, w.(volumes := w.volumes[v := w.volumes[v].(content := content)]))
  {
    assert Vol(w, v).Some?;
    VolumesKept(c, d, w, w.(volumes := w.volumes[v := w.volumes[v].(content := content)]), v);
  }

  /** Changing files of the cluster. */
  lemma FilesKept(c: string, d: string, w: World, w': World)
    requires Tidy(w) && w' == w.(files := w'.files, clock := w'.clock) && w.clock <= w'.clock
    requires forall path :: !Under(path, w.root, c) ==> FileAt(w', path) == FileAt(w, path)
    requires forall path :: FileAt(w', path).Some? ==> TidyFile(FileAt(w', path).value, w'.clock)
    requires Marked(w, c) && Recorded(w', c, d)
    ensures Kept(c, d, w, w')
  {
    hide Owned;
    hide OwnedVolume;
    hide Shape;
    assert forall x :: At(w', x) == At(w, x);
    assert forall x :: Vol(w', x) == Vol(w, x);
  }

  lemma WrittenKept(c: string, d: string, w: World, path: string, file: File)
    requires Tidy(w) && Lawful(w, c, d) && Under(path, w.root, c) && TidyFile(file, w.clock + 1)
    requires path == StatePath(w.root, c) ==> (file.Record? ==> Shape(file.state, c, d))
    ensures Kept(c, d, w, Written(w, path, file))
  {
    var w' := Written(w, path, file);
    assert forall p :: FileAt(w', p) == if p == path then Some(file) else FileAt(w, p);
    FilesKept(c, d, w, w');
  }

  lemma DirGoneKept(c: string, d: string, w: World)
    requires Tidy(w) && Lawful(w, c, d)
    ensures Kept(c, d, w, DirGone(w, c)) && SavedOf(DirGone(w, c), c).Missing?
  {
    var w' := DirGone(w, c);
    assert forall p :: FileAt(w', p) == if Under(p, w.root, c) then None else FileAt(w, p);
    InUnder(w.root, c, "state.json");
    FilesKept(c, d, w, w');
  }

  lemma HelperMarked(w: World, l: Launch, c: string)
    requires LabelValue(l.labels, CLUSTER_KEY) == None
    ensures MarkedContainer(Made(w, l), Helper(c), c)
  {
  }

  /** A one-shot container of cluster c touches at most its own volume. */
  lemma OneShotKept(c: string, d: string, w: World, args: seq<string>, l: Launch, content: Content, answers: bool)
    requires Tidy(w) && Lawful(w, c, d)
    requires l.names != [] && Owned(l.names[0]) == Helper(c) && LabelValue(l.labels, CLUSTER_KEY) == None
    requires NamedVolume(l.volumes).Some? ==> OwnedVolume(NamedVolume(l.volumes).value).Of(c)
    ensures Kept(c, d, w, OneShot(w, args, l, content, answers))
  {
    hide Owned;
    hide OwnedVolume;
    hide Shape;
    hide Tidy;
    hide Lawful;
    hide Untouched;
    hide MarkedContainer;
    var id, v := l.names[0], NamedVolume(l.volumes);
    MadeTidy(w, l);
    HelperMarked(w, l, c);
    WithKept(c, d, w, id, Made(w, l), true);
    var w1 := Tick(With(w, id, Made(w, l)));
    var w2 := if v.Some? && v.value in w.volumes then w1.(volumes := w1.volumes[v.value := w1.volumes[v.value].(content := content)]) else w1;
    if v.Some? && v.value in w.volumes {
      FilledKept(c, d, w1, v.value, content);
      KeptTrans(c, d, w, w1, w2);
    }
    OneShotLast(c, d, w, w2, args, answers);
    var w3 := w2.(answered := if answers then w.answered[args := w.clock] else w.answered);
    assert OneShot(w, args, l, content, answers) == w3;
  }

  lemma OneShotLast(c: string, d: string, w: World, w2: World, args: seq<string>, answers: bool)
    requires Kept(c, d, w, w2) && w2.answered == w.answered && w2.clock == w.clock + 1
    ensures Kept(c, d, w, w2.(answered := if answers then w.answered[args := w.clock] else w.answered))
  {
    var w3 := w2.(answered := if answers then w.answered[args := w.clock] else w.answered);
    assert forall x :: At(w3, x) == At(w2, x);
    assert forall x :: Vol(w3, x) == Vol(w2, x);
    assert forall x :: FileAt(w3, x) == FileAt(w2, x);
  }
}
