# k3ac: the cluster lifecycle engine

k3ac runs k3s clusters as micro-VM containers of Apple's `container` CLI: managed etcd members, k3s
servers, an API load balancer and k3s agents, each with its own named volume, under a state
directory that holds one record per cluster. This project models the engine that creates, changes,
starts, stops, upgrades, re-keys, restores and destroys those clusters, and proves what holds at
every point of every run of it, including every point at which a step fails.

## How the model is built

- `World` is the container runtime and the state directory as the launcher sees them: containers with
  the launch they were run from, whether they run, the commands run in them since boot, the address
  and the TLS generation of their last boot, and the incarnation of the volume they mounted; volumes
  with their birth time and content; files. A pure function says what each CLI call or file
  operation makes of a world.
- `Runtime.Provisioner` is the provisioner: one mutable field `world`, and one method per CLI call or
  file operation. Each may fail before or after taking effect, a failed write may leave an unreadable
  file, a booted container gets any address, loses its forwarding setup and re-reads its keys. Ghost
  fields record every world an operation passes through (`trace`), the cluster it is about (`scope`)
  and a property it must keep (`watch`): no primitive can be called unless every outcome of it keeps
  the property, so an operation's theorem about `trace` is a theorem about every intermediate and
  abort point.
- The operations (`Create`, `NodeOps`, `Lifecycle`, `Rolling`, `Token`, `Rotation`, `Restore`,
  `Teardown`) are methods that follow the Go loops step by step. `Session` runs any sequence of them on
  any clusters, whatever each comes to.
- The pure layer (`Names`, `Numbering`, `Ordering`, `Recipes`, `Meaning`, `Launches`, `LoadBalancer`,
  `Kubeconfig`, `Hosts`, `Request`, `Records`) holds the name, volume and endpoint derivations with real
  decimal printing and parsing, the run vectors with a reading of what the CLI makes of them (`Recipes`) and
  of what k3s, etcd, etcdctl and HAProxy make of the commands, mounts and file they get (`Meaning`,
  `LoadBalancer`), the kubeconfig rewrite and scan, the host entries and what they resolve, the request
  and the record. The readings know nothing of the builders: flags, file names, ports and paths stand in them
  as those programs have them. Whose a container or volume is, is *read back* from its name (`Names.Owned`,
  `Names.OwnedVolume`), which is what isolation rests on.

Two words recur. A record is *well shaped* (`Records.Shape`) when its nodes are numbered for the
cluster with unique names and matching IDs, its datastore members are etcd-1, etcd-2, ... in odd number
of at least three or none, there is a server, several servers only over a shared datastore, at most one
load balancer, and the recorded endpoint is the load balancer's name exactly when there is one. It is
*faithful* (`Fidelity.Faithful`) when every recorded node's container exists under its ID on the present
incarnation of its own volume and its launch reads as what the record says of it (`Fidelity.Suits`): a k3s
node with the recorded image, network, sizes, token, endpoints, certificate names, labels and arguments, and
over a managed datastore with each client key in its place; a member of the recorded mesh under its own name
and URLs, with its own keys and its data on its volume; or the load balancer on its configuration directory.

## Assumptions

- One operator at a time.
- Cluster names are non-empty and over lower-case letters, digits and `-` (`Names.VolumesCollide` says
  exactly which other names share volumes).
- For the cluster an operation is about, or those a run's commands name: what is named for it carries its
  label, what carries its label is named for it, and its helpers are unlabelled. Nothing is asked of the
  labels of anything else on the host.
- Requests come from `buildNodes` and `buildClusterConfig`; an image is not a text starting with `-`; the
  state directory and manifests are absolute paths without `:`. Where a snapshot or CA directory is read
  through its mount, it is one too.
- What is said of the load balancer's file is said for a domain without blanks and line breaks (`Text.Solid`).
- A provisioner's DNS domain is fixed, so every operation of a run uses the same one; the record does not
  hold it although recreating a node derives its container ID from it.
- k3s writes its kubeconfig before the wait for it ends, and not again while the cluster is created.
- Integers do not overflow.

## Model

The theorems about whole operations and runs come first, then the derivations, checks and steps they rest
on.

| member | source | states |
|---|---|---|
| Session.Run | cmd/k3ac/main.go:29-217 | every sequence of commands with any outcomes: see below |
| Session.TeardownUndoes | provider/apple/destroy.go:36-151 | if nothing of a cluster was there and nothing is left, everything but its helper containers is as it was |
| Session.OtherTrusted | provider/apple/container.go:248-292 | an operation on one cluster leaves the record of another as faithful as it was |
| Session.BystanderTrusted | provider/apple/container.go:248-292 | any run leaves the record of a cluster none of its commands names as it was, and as faithful |
| Session.FreshInPlan | provider/apple/create.go:109-216 | any request for a cluster that is not there starts in dependency order |
| Session.Execute | cmd/k3ac/main.go:338-425 | each command, from any world where its own cluster's names and labels agree and its record is well shaped or unreadable, keeps to its cluster and leaves what it promises on success |
| Create.Create | provider/apple/create.go:60-256 | at every point nothing that was there changes, new nodes are on new volumes, what runs of the lineup has what it depends on, and servers wait for the quorum; on success the requested lineup serves as recorded, on new volumes, at different addresses, with the environment, resolvers, CA bundle and manifests asked for, all on one new CA if the datastore is managed, behind the endpoint in the delivered kubeconfig and, if there is a load balancer, one that leads to exactly the servers; the record holds what was asked for; with a volume of the lineup there, a manifest that leads to no file or a CA directory without a bundle it fails; what the volume guard and a bad manifest leave is stated exactly |
| Create.CreatedKubeconfig | provider/apple/create.go:269-293 | from the operator's kubeconfig of a created cluster one reads the credentials k3s wrote, with the recorded API endpoint as the server |
| Create.CreatedNames | provider/apple/create.go:1028-1052 | with resolvers of its own, every node of a created cluster resolves every node's name to the address its container has |
| Create.GuardedExactly | provider/apple/create.go:392-438 | a create refused by the volume guard had no effect if and only if there is no datastore to manage and the volume there was the first node's, and wrote no file if and only if there is no datastore to manage |
| Create.LeftoverRefused | provider/apple/create.go:392-438 | on a host with one leftover volume of the lineup: no effect exactly when it is the only server's, no files exactly with one server |
| Create.StaleAgent | provider/apple/create.go:955-984 | an instance: a stale agent volume leaves the server's new volume behind, and no files |
| Create.StaleMember | provider/apple/create.go:413-438 | an instance: a stale member volume leaves new keys behind |
| Create.StaleServer | provider/apple/create.go:955-984 | an instance: a stale volume of the only server leaves nothing behind |
| Create.RecreatedOnLeftoverKeys | provider/apple/day2.go:100-122 | after a refused create over a managed datastore and then a create of that name over another one, no recreation of a server issues the vector it was launched with |
| Create.CreatedAfresh | provider/apple/create.go:955-984 | a create that succeeds found none of the lineup's volumes there |
| Create.LateDiffers | provider/apple/create.go:151-168 | a create that refuses a bad manifest has already changed the world |
| NodeOps.AddAgents | provider/apple/node_ops.go:39-128 | at every point old containers, volumes and files stay and new nodes are on new volumes; on success the record grows by the agents asked for under fresh names and of the size asked for, all serving on the cluster's network, and stays faithful; a refusal by the volume guard leaves only volumes, and none exactly when the first agent's was there |
| NodeOps.AddServer | provider/apple/node_ops.go:142-236 | as for agents, but the load balancer may restart; on success one server more under a fresh name and of the size asked for, on the cluster's network, with the datastore's client keys each in its place if and only if they are on disk, and the load balancer leads to exactly the recorded servers; a refusal by the volume guard has no effect |
| NodeOps.RemoveNode | provider/apple/node_ops.go:302-363 | at every point only that agent's container and volume may change; on success both are gone and the record is without it, as faithful as before; other roles and unknown names are refused with nothing changed |
| Lifecycle.Stop | provider/apple/lifecycle.go:84-103 | dependency order holds at every point, nothing but running states changes, and success means all recorded nodes are down |
| Lifecycle.Start | provider/apple/lifecycle.go:116-154 | dependency order holds at every point, nothing but running states changes, what ran runs on, what is started reads the keys on disk, and success means all recorded nodes serve with forwarding set up |
| Rolling.Upgrade | provider/apple/upgrade.go:109-151 | the roll's property at every point; on success every k3s node runs the new image over its old volume, on the recorded network, at its recorded size, with its keys in their places, by the vector of `Recipes.RecreateFidelity`, and the record pins that image, remembering the old one; refused without force or target |
| Rolling.Rollback | provider/apple/upgrade.go:155-196 | the same roll onto the remembered image; refused without force or a remembered image |
| Rolling.OneNodeDown | provider/apple/upgrade.go:201-260 | from an all-ready cluster at most one k3s node is not ready at any point |
| Rolling.RollingMeans | provider/apple/upgrade.go:201-260 | at every point nodes before the one under way run the target image, those after are unchanged, datastore, load balancer and volumes are untouched, and the record is unchanged until all are done |
| Rolling.RollbackUndoes | provider/apple/upgrade.go:53-67 | a rollback swaps the two pins back, and a second one returns to the upgrade |
| Rotation.StartsOnOneCA | provider/apple/lifecycle.go:116-154 | at every point of a start all members and servers that run are on one CA if the CA each runs on, or its bundle holds, is the same; if the start succeeds, only if |
| Rotation.AbortedRotation | provider/apple/rotate.go:104-112 | a rotation that ends after one member's bundle was written leaves a cluster in which every start that succeeds puts two CAs to work |
| Session.CreatedOnOneBundle | provider/apple/create.go:487-504 | a created cluster with a managed datastore has all its bundles, and all that run of it, on one CA |
| Token.RotateToken | provider/apple/rotate.go:262-336 | at every point datastore, load balancer, volumes and files stay, each k3s node is as before, gone, or on the new launch, and none is replaced before the first server was told to reseal the bootstrap data from the recorded token to the new one; on success all have the new token and the record says so |
| Rotation.RotateCerts | provider/apple/rotate.go:66-134 | at every point containers keep their volumes, dependency order holds, and all running members and servers trust one CA; on success that CA is new for all and in all bundles, what ran on every server's volume was k3s's own certificate rotation of the data there, by the recorded image, and all nodes serve |
| Restore.Restore | provider/apple/snapshot.go:259-339 | at every point no member is launched or booted again before all volumes are restored, no other node boots before the marker check, server and agent volumes are untouched, dependency order holds; on success every member runs, in the directory the snapshot was unpacked to on its own volume, as the member of the mesh it was unpacked for, the marker was asked for, all serve, and the record stays faithful |
| Teardown.Destroy | provider/apple/destroy.go:36-60 | from any state of a cluster whose names and labels agree, whatever else is on the host, a teardown without errors leaves no node container, volume or file of the cluster; an unreadable record is refused |
| Fidelity.EndpointVerifies | provider/apple/node.go:643-686 | the host of the recorded endpoint is a certificate name of every recorded server, including those added or recreated later |
| Fidelity.MembersAdvertise | provider/apple/node.go:247-338 | each member in place advertises the client URL that stands for it in the recorded endpoint and the peer URL of its entry in the mesh, on the ports it listens on |
| Names.SanitizedFixed | provider/apple/node.go:108-123 | clean names pass through sanitising unchanged, so volume names keep what they are built from |
| Names.VolumesCollide | provider/apple/node.go:108-215 | for any two cluster names, two volumes are one exactly when the names sanitise alike and it is the same node: same role, same number |
| Names.UncleanNamesShareAVolume | provider/apple/node.go:108-137 | an instance: clusters A and a share the volume of their first servers |
| Names.NodeNameInjective | provider/apple/node.go:172-207 | equal node names have the same cluster, role and number, through decimal printing |
| Names.NodesNeverCollide | provider/apple/node.go:108-215 | two nodes that share a container ID or a volume are the same node of the same cluster, whatever the domains |
| Names.OwnedNode | provider/apple/node.go:149-155 | the cluster and role of any node are read back from its container ID, with or without a domain |
| Names.OwnedNodeVolume | provider/apple/node.go:135-215 | the cluster and role of any node are read back from its volume name |
| Names.OwnedClusterHelpers | provider/apple/snapshot.go:106-125 | snapshot and verification helpers belong to their cluster and are never mistaken for a node |
| Names.OwnedNodeHelpers | provider/apple/rotate.go:37-51 | restore and certificate helpers belong to their node's cluster and are never mistaken for a node |
| Names.SanitizeVolumeName | provider/apple/node.go:108-123 | the loop computes the per-character sanitising |
| Names.EtcdInitialCluster | provider/apple/node.go:247-256 | the loop joins one name=peer-URL entry per member, in order |
| Names.EtcdDatastoreEndpoint | provider/apple/node.go:264-272 | the loop joins one client URL per member, in order |
| Text.AtoiDec | provider/apple/node_ops.go:407-427 | parsing a printed number gives the number back |
| Numbering.NextIndexForPrefix | provider/apple/node_ops.go:407-427 | the running maximum gives the least index above every index recorded under the prefix |
| Numbering.FreshNames | provider/apple/node_ops.go:76-88 | names numbered from the next index are pairwise distinct and absent from the record |
| Numbering.FreedIndexReused | provider/apple/node_ops.go:388-401 | an index freed by a removal is handed out again exactly when it was above all that remain, contrary to the comment |
| Ordering.NodesWithRole | provider/apple/day2.go:49-59 | the loop computes the filter, order kept |
| Ordering.OrderByRole | provider/apple/lifecycle.go:55-69 | the method computes the ordered copy |
| Ordering.OrderedByRoleSorts | provider/apple/lifecycle.go:55-69 | the result is a stable permutation sorted by rank |
| Ordering.StablySortedUnique | provider/apple/lifecycle.go:55-69 | there is only one stable permutation sorted by rank |
| Ordering.StartOrderMirrorsStopOrder | provider/apple/lifecycle.go:73-77 | the start order is the reverse of the stop order of the reversed list |
| Ordering.StartReversesStop | provider/apple/lifecycle.go:75-77 | the start order is the exact reverse of the stop order if and only if no role occurs twice, contrary to the comment |
| Ordering.UpgradeOrderIsStartOrder | provider/apple/day2.go:76-82 | the upgrade order is the start order without datastore and load balancer |
| Kubeconfig.RewriteRemovesLoopback | provider/apple/create.go:826-828 | rewriting with an endpoint leaves no loopback address in any text, even across a seam, exactly when the endpoint holds none; then a second rewrite changes nothing |
| Kubeconfig.ParseKubeconfigCreds | provider/apple/kubeconfig_merge.go:46-77 | there is a result exactly when each of the four keys has a value on some line, and each field is the value on the first line that begins with its key and has one |
| Kubeconfig.ParsedOfRewrite | provider/apple/kubeconfig_merge.go:46-77 | scanning a rewritten kubeconfig gives the rewritten credentials of the original, for every text |
| Kubeconfig.DeliveredCreds | provider/apple/create.go:269-293 | the scan of the delivered kubeconfig reads the new server and the three blobs unchanged |
| Kubeconfig.EndpointPlain | provider/apple/node.go:370-379 | the API endpoint fits on a kubeconfig line exactly when the domain, or without one the address, holds no white space |
| Launches.BuildRunArgs | provider/apple/node.go:515-704 | the loops and branches build a vector that by the CLI's and k3s's reading runs this node with the cluster's settings, and a server with each of the datastore's keys in its place, or with none |
| Recipes.NodeRunReads | provider/apple/node.go:515-704 | the CLI reads the vector as the intended name, mounts, labels, environment, network, sizes, resolvers, capabilities, scratch mounts, image and command, whatever the settings hold |
| Recipes.SimpleRunReads | provider/apple/node.go:451-480 | the vectors of members, load balancer and one-shots are read back in full by the CLI |
| Meaning.NodeServes | provider/apple/node.go:515-704 | by the reading of flags, a node's launch has the image, network, sizes and data mount, the token, the agent's API URL, the server's datastore endpoint, as certificate names the server's own host and the load balancer's, and at its end the node's labels and extra arguments |
| Meaning.ServerKeyed | provider/apple/node.go:562-564 | with a client bundle, a server's CA, certificate and key flags name ca.crt, client.crt and client.key of that directory, through the mount it is at; without one, it has no such flags and no keys |
| Meaning.ServerWrites | provider/apple/node.go:575-664 | the bootstrap server writes its kubeconfig into the mounted cluster directory |
| Meaning.NodeOutfitted | provider/apple/node.go:515-612 | every launched node has the resolvers, the environment after its own, and the CA bundle found through its mount |
| Meaning.TokenReads | provider/apple/rotate.go:59-61 | k3s reads the rotation command as from the old token to the new |
| Recipes.ServerLaunchTLS | provider/apple/node.go:515-704 | the directory a server loads datastore keys from is the configured one, whatever manifests and kubeconfig mounts precede it |
| Recipes.ManifestMountArgs | provider/apple/node.go:712-725 | one mount per manifest, in order, under its base name |
| Recipes.RecreateFidelity | provider/apple/day2.go:89-122 | recreating a node from the record issues its original vector if and only if it was launched without environment, resolvers and CA directory and, for a server, it is not the bootstrap server, whose kubeconfig and manifest mounts are not made again, and the client bundle found on disk is the one it was launched with |
| Recipes.LeftoverBundle | provider/apple/node_ops.go:502-509 | an instance: a second server over an operator's own datastore is recreated with the bundle an abandoned create left on disk, which it never had |
| Day2.RecreatesAgree | provider/apple/day2.go:191-230 | any number of recreations with the same pins and bundle issue the same vector, whatever addresses the node gets |
| Recipes.SizesRoundTrip | cmd/k3ac/main.go:485-515 | megabytes and vCPUs from the flags come out of the vector as they went in |
| Launches.NodeReads | provider/apple/node.go:515-704 | a recorded k3s node's vector runs that node, labelled with its cluster, on its own volume, with the cluster's settings |
| Launches.EtcdReads | provider/apple/node.go:290-338 | the member's vector runs that member of the mesh, advertised at its own host on the ports it listens on, keyed both ways, with its data on its own volume |
| Launches.RestoreReads | provider/apple/snapshot.go:137-159 | the restore helper unpacks the snapshot file from the backup mount, under the member's name, mesh, token and peer URL, to the data directory on the member's volume |
| Launches.VerifyReads | provider/apple/snapshot.go:164-183 | the verification helper asks that member for the key, with the clients' keys |
| Launches.CertRotateReads | provider/apple/rotate.go:37-51 | the rotation helper runs k3s's certificate rotation on the data at the server's own volume, with the cluster's image |
| LoadBalancer.BuildAPILBConfig | provider/apple/node.go:397-437 | for a domain without blanks and line breaks the text leads HAProxy, as it reads it, from the API port in TCP mode to the API port of each server, in order, and nowhere else |
| LoadBalancer.ConfigRoutes | provider/apple/node.go:397-437 | the same of the text as a function of the server names |
| LoadBalancer.ConfigNamesServers | provider/apple/node.go:397-437 | two configurations are equal exactly when they list the same servers in the same order |
| Bringup.EndpointLeads | provider/apple/node.go:370-437 | the recorded endpoint's host is the load balancer's container, its port the one that is bound, and they lead to the API port of each recorded server's container |
| Hosts.BuildEntries | provider/apple/create.go:1028-1041 | the loop writes one line per node that has an address, in order |
| Hosts.EntriesResolve | provider/apple/create.go:1028-1052 | by that text each node's name, bare or under the domain, resolves to that node's address |
| Request.BuildNodes | cmd/k3ac/main.go:485-511 | servers numbered from 1, then agents numbered from 1, each with its sizes and arguments |
| Request.RequestsAreRequested | cmd/k3ac/main.go:449-511 | every command line gives servers first, and a managed datastore and load balancer exactly for several servers |
| Request.DraftShape | provider/apple/create.go:238-253 | a request that passes validation leads to a well-shaped record |
| Request.LineupRoles | provider/apple/create.go:109-216 | the bring-up order holds exactly the members, servers, load balancer and agents asked for, with their names, sizes and arguments |
| Request.LineupNamed | provider/apple/create.go:109-216 | the bring-up order names every node for its cluster, without repeats |
| Request.LineupSorted | provider/apple/create.go:109-216 | what a node depends on comes before it |
| Checks.AssertDistinctIPs | provider/apple/create.go:988-1005 | passes exactly when every node has an address and no two share their first |
| Checks.ValidateClusterConfig | provider/apple/create.go:859-893 | passes exactly when the CA directory, if there is one, is absolute and holds a bundle, there is a server, several only over a datastore, and a managed member count is odd and at least three |
| Checks.ResolveManifests | provider/apple/create.go:905-941 | passes exactly when every path leads to a file and no two to the same base name, and gives each request's own absolute path, in order |
| Records.ReplaceNodeInState | provider/apple/day2.go:235-245 | the loop replaces the first node of that ID and says whether there was one |
| Records.DistinctIds | provider/apple/node.go:135-155 | in a well-shaped record container IDs, and volumes within a role, are as unique as names |
| Records.RecordedMesh | provider/apple/snapshot.go:302-320 | the mesh a restore recomputes has one entry per recorded member, in order, under its own name, and the endpoint is theirs |
| Records.EndpointNamesLB | provider/apple/node.go:370-379 | with names, the recorded API endpoint is the load balancer's exactly when one is recorded |
| EtcdTLS.EndpointNamesMembers | provider/apple/etcd_tls.go:68-75 | the host of each URL in the recorded datastore endpoint is a certificate name of its own member and of no other |
| World.DirsApart | provider/apple/state.go:15-17 | clusters do not share files |
| World.Strangers | provider/apple/container.go:248-292 | containers neither named nor labelled for a cluster, labelled at all or not, are no concern of its operations |
| Runtime.Provisioner.Then | provider/apple/create.go:60-256 | every point of an operation is tidy, leaves everything outside its cluster as it was, keeps the cluster's record well shaped, and satisfies what the operation watches |
| Runtime.Provisioner.Run | provider/apple/container.go:42-54 | a name in use is refused; a failed run may leave nothing, a container that never booted, or a running one |
| Runtime.Provisioner.RunOnce | provider/apple/container.go:42-54 | a one-shot run leaves its container, and its vector or a torn state in the volume it mounts |
| Runtime.Provisioner.Stop | provider/apple/container.go:121-128 | a container that is not there counts as stopped; a failed stop may have stopped it |
| Runtime.Provisioner.Start | provider/apple/container.go:135-139 | a container that is not there is an error; a start re-boots a stopped one only |
| Runtime.Provisioner.Remove | provider/apple/container.go:142-149 | a container that is not there counts as removed; a failed removal may have removed it |
| Runtime.Provisioner.Exec | provider/apple/container.go:69-73 | a command runs in a running container only, and a failed one may have run |
| Runtime.Provisioner.EnableIPForward | provider/apple/create.go:651-677 | on success all four setup commands ran since the last boot; only k3s nodes can be set up |
| Runtime.Provisioner.AwaitKubeconfig | provider/apple/create.go:759-789 | only k3s's kubeconfig may change meanwhile, and success means there is one that is not empty |
| Runtime.Provisioner.TellToken | provider/apple/rotate.go:59-61 | only a running server can be told of the new token; it is told the given command; a failed call may have told it |
| Runtime.Provisioner.VolumeCreate | provider/apple/container.go:157-161 | a name in use is refused; the volume is new, blank and labelled |
| Runtime.Provisioner.LoadState | provider/apple/state.go:46-60 | a missing record is told apart from an unreadable one; a loaded one is what is saved |
| Runtime.Provisioner.SaveState | provider/apple/state.go:23-40 | the record is written, or left as it was, or left unreadable |
| Runtime.Provisioner.RemoveDir | provider/apple/destroy.go:36-60 | all of the cluster's files go, or on failure any part of them stays |
| EtcdTLS.DeliverTLS | provider/apple/create.go:487-504 | every member's directory and then the clients' hold one and the same new CA generation; nothing but bundles is written |
| Bringup.PrepareNodeVolumes | provider/apple/create.go:955-984 | on success every node's volume was made in this operation; volumes that were there are never changed; a refusal leaves the world as it was exactly when the first node's volume was there |
| Day2.RecreateNode | provider/apple/day2.go:191-230 | on success the container is the CLI's reading of the given vector on the incarnation of its volume that was there, set up for forwarding; nothing else changes at any point |
| Create.SetupDatastore | provider/apple/create.go:367-378 | none for a single server or a given endpoint; refused without a domain; else a quorum stands on new volumes and one new CA, and the endpoint is its members' |
| Create.SetupAPILB | provider/apple/create.go:512-530 | a load balancer exactly for several servers with a domain |
| Create.DeliverKubeconfig | provider/apple/create.go:269-293 | the operator's kubeconfig is the text of k3s's own, on disk beside it, rewritten to the API endpoint |
| Create.WriteClusterHosts | provider/apple/create.go:1028-1052 | with resolvers and a domain, every node is given the entries of all nodes |
| NodeOps.EnsureAddServerable | provider/apple/node_ops.go:458-481 | passes exactly when there is a datastore endpoint and a load balancer |
| NodeOps.RefreshAPILB | provider/apple/node_ops.go:244-293 | on success the load balancer booted on a configuration that leads to exactly the recorded servers; nothing else changed |
| NodeOps.FindNode | provider/apple/node_ops.go:302-330 | the first recorded node of the name, and none only if no recorded node has it |
| Rolling.RollingReplace | provider/apple/upgrade.go:201-225 | on success every k3s node was recreated from the record, on the target image, in upgrade order |
| Rotation.RotateOffline | provider/apple/rotate.go:184-221 | on success what ran last on the server's volume reissued the certificates kept there; no other volume and no node changes |
| Restore.RestoreVolumes | provider/apple/snapshot.go:346-378 | on success every member's volume is new and the same snapshot was unpacked on it for that member |
| Restore.VerifyMarker | provider/apple/snapshot.go:416-438 | passes only if the first member of the restored quorum was asked for the marker key, with the clients' keys, and printed something |
| Teardown.MatchingLabel | provider/apple/container.go:248-292 | exactly the items whose label has the selector's value; a selector without a separator is refused |
| Teardown.EmptySelectorTakesUnlabelled | provider/apple/destroy.go:111-116 | an empty cluster name would select every unlabelled item, contrary to the comment; the guard of the sweep is what protects them |
| Teardown.LoadStateForDestroy | provider/apple/state.go:66-88 | a missing record becomes a reference by name; an unreadable one is an error |
| Teardown.DestroyRecordedNodes | provider/apple/destroy.go:69-104 | without errors every recorded node's container and volume are gone; errors never stop the pass |
| Teardown.SweepByLabel | provider/apple/destroy.go:113-151 | without errors nothing labelled with the cluster is left, recorded or not; for an empty cluster name nothing is touched |

`Session.Run` states, for every sequence of commands on any clusters, each of which may fail at any
step: every world passed through has only well-shaped records of these clusters and differs from the first
only in what belongs to them (isolation; `Session.BystanderTrusted` says what that leaves of all others);
every command that succeeds leaves what it promises, in particular a create or a change to a faithful record
leaves a faithful one with no fewer servers; a cluster whose own commands all succeed keeps a faithful
record, whatever became of the others; if the commands on a cluster are creates of one lineup, starts,
stops, restores and certificate rotations, then at every point, whatever they come to, what runs of the
lineup has everything it depends on running; if a cluster starts out with its
bundles and all that run of it on one CA, as a created one does (`Session.CreatedOnOneBundle`), and its own
commands are starts, stops and certificate rotations of which the rotations succeed, all its members and
servers that run are on one CA throughout (`Rotation.AbortedRotation` shows that a rotation cut short ends
that); and the node containers, volumes and files of a cluster that
was not there at first and whose last command destroys it and succeeds are what they were, whatever else
the run did. If the run names no other cluster, so is everything else but the cluster's one-shot helpers.

## Where the code and its comments differ

- The start order is called the exact reverse of the stop order (provider/apple/lifecycle.go:75-77); with
  two nodes of one role it is not (`Ordering.StartReversesStop`).
- Freed indices are said never to be reused (provider/apple/node_ops.go:388-401); the highest one is
  (`Numbering.FreedIndexReused`).
- The empty label selector is said to match nothing useful (provider/apple/destroy.go:111-113); it matches
  every unlabelled item (`Teardown.EmptySelectorTakesUnlabelled`).
- A cluster over an operator's own datastore is said to have no client bundle on disk
  (provider/apple/node_ops.go:498-501), and a recreated server to get the bundle the original servers use
  (provider/apple/day2.go:102-105). A create over a managed datastore that stops after writing its keys leaves
  them there, a later create of that name without one does not look at them, and every server added or
  recreated afterwards gets them (`Create.RecreatedOnLeftoverKeys`, the contract of `NodeOps.AddServer`).
- Leftover volumes are said to be caught before any container launches
  (provider/apple/create.go:418-420). With a managed datastore its keys are rewritten before its own volumes
  are looked at, and its members run before the servers' and agents' volumes are; without one, the volumes
  before the leftover one are made first. So a create refused by the guard is free of effects only without a
  managed datastore and when the first node's volume is the one that was there (`Create.GuardedExactly`;
  `Create.LeftoverRefused` for lineups of any size, `Create.StaleAgent`, `Create.StaleMember` and
  `Create.StaleServer` for one each).
- A bad manifest is said to fail before any launch (provider/apple/create.go:147-150); it is looked at when
  all volumes are made and a managed datastore runs, so it never fails without effects
  (`Create.LateDiffers`, and the contract of `Create.Create`).

## Left out

- Rolling.Upgrade: says nothing of the addresses in the new record, because reading them back is best effort and keeps the old one on failure.
- Runtime.Provisioner.Await: waits and dials end well or not, and change nothing; timeouts and polling are not modelled.
- Custom networks: they are not owned by a cluster; creating one with a cluster is a check that passes or fails.
- The snapshot operation: it reads a running member and writes outside the modelled files; restore takes the snapshot's name.
- Cordon, uncordon and drain, and the text of kubectl commands: they change nothing the model sees; deleting a node from kubectl may clear its Ready mark.
- Cluster listing, flag parsing, configuration files, log text and `kubectl config` merging beyond the credential scan: single-branch facts.
- Keys and certificates: a bundle is a generation number and the directories it is written to; what x509 does is not modelled, nor is the JSON of a record.
- The 64-bit range of parsed indices and the scanner's limit on line length.
- What k3s, etcd and haproxy do inside a container, beyond what they are told: which node, member or backends, on which volume, directory, keys and configuration.
- The text of commands run inside a container (the forwarding setup, the quorum question, clearing stale certificates): each is a name; the token rotation and the host entries are modelled as text.
- One-shot helper containers survive a failed run and carry no label, so teardown does not promise to remove them.
- The record does not hold environment variables, resolvers, the CA directory and whether a server was launched with a client bundle, so a recreated or added node does not get the first three and gets whatever bundle is on disk, and a recreated bootstrap server gets neither the kubeconfig mount nor the manifests; `Recipes.RecreateFidelity` says exactly when that matters.
- Waiting for readiness between two recreations of a token rotation: the code does not do it.
