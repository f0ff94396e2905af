/** The request and state records of the launcher (provider/apple/types.go), plus the
    success/failure types its operations return. */
module Types {

  datatype Option<+T> = None | Some(value: T)

  datatype Role = Server | Agent | Datastore | LB {
    /** The k3s subcommand and the value of the role label. */
    function Text(): string {
      match this
      case Server => "server"
      case Agent => "agent"
      case Datastore => "datastore"
      case LB => "lb"
    }

    predicate IsK3s() {
      Server? || Agent?
    }
  }

  /** A vmnet IPv4 address in its printed form. */
  type Addr = string

  datatype NodeConfig = NodeConfig(
    name: string,
    role: Role,
    memory: int,
    nanoCPUs: int,
    labels: seq<string>,
    extraArgs: seq<string>)

  datatype NodeInfo = NodeInfo(
    id: string,
    name: string,
    role: Role,
    ips: seq<Addr>,
    memory: int,
    nanoCPUs: int,
    labels: seq<string>,
    extraArgs: seq<string>)

  datatype ClusterConfig = ClusterConfig(
    name: string,
    image: string,
    network: string,
    token: string,
    datastoreEndpoint: string,
    manageDatastore: bool,
    datastoreMembers: int,
    datastoreImage: string,
    datastoreMemory: int,
    datastoreTLSDir: string,
    provisionAPILB: bool,
    envVars: seq<string>,
    dnsServers: seq<string>,
    caDir: string,
    manifests: seq<string>,
    nodes: seq<NodeConfig>)

  datatype ClusterState = ClusterState(
    clusterName: string,
    network: string,
    token: string,
    image: string,
    datastoreEndpoint: string,
    datastoreImage: string,
    previousImage: string,
    serverURL: string,
    nodes: seq<NodeInfo>)

  /** Why an operation stopped. CliFailed stands for every failure of a command, a dial or
      a file operation; the other cases are refusals the launcher decides on itself. */
  datatype Error =
    | CliFailed
    | NotFound
    | NoServer
    | NeedsDatastore
    | BadMemberCount
    | NeedsDomain
    | NoSuchDomain
    | StaleVolume(volume: string)
    | BadManifest
    | BadCADir
    | NodeWithoutIP(node: string)
    | SharedIP(first: string, second: string)
    | NotServable
    | NoLoadBalancer
    | NotRemovable(role: Role)
    | NoPreviousImage
    | NoTargetImage
    | NoManagedDatastore
    | NotForced
    | MarkerAbsent

  datatype Outcome = Pass | Fail(error: Error) {
    predicate IsFailure() {
      Fail?
    }

    function PropagateFailure(): Outcome
      requires Fail?
    {
      this
    }
  }

  datatype Result<+T> = Ok(value: T) | Err(error: Error) {
    predicate IsFailure() {
      Err?
    }

    function PropagateFailure<U>(): Result<U>
      requires Err?
    {
      Err(error)
    }

    function Extract(): T
      requires Ok?
    {
      value
    }
  }
}
