// Values shared by every phase of the reconciler: the Service, its resolved
// options, the cloud resources, and the outcome of an API call.
module Types {
  datatype Option<+T> = None | Some(value: T) {
    function GetOr(default: T): T {
      if Some? then value else default
    }
  }

  datatype Result<+T> = Ok(value: T) | Err(error: Error)

  // Error texts are reduced to the distinctions the code makes on them.
  // Immutable stands for a text that isLoadBalancerImmutableError recognises.
  datatype Error =
    | NotFound
    | MultipleResults
    | Immutable
    | NotActive
    | Timeout
    | Cancelled
    | CallFailed
    | InvalidInput

  // Resource identifiers are opaque; 0 stands for the empty string.
  type ID = int

  const NO_ID: ID := 0

  // The text of a parsed IP address never contains '|'.
  type Addr = s: string | '|' !in s witness ""

  datatype Protocol = TCP | UDP | SCTP

  datatype ListenerProtocol = ListenTCP | ListenUDP | ListenHTTP | ListenTerminatedHTTPS

  datatype MonitorType = MonitorTCP | MonitorUDPConnect

  datatype Monitor = Monitor(kind: MonitorType, delay: int, timeout: int, maxRetries: int)

  datatype ServicePort = ServicePort(name: string, protocol: Protocol, port: int, nodePort: int)

  datatype Timeouts = Timeouts(clientData: Option<int>, memberData: Option<int>, memberConnect: Option<int>)

  datatype Options = Options(
    subnetID: string,
    internal: bool,
    keepClientIP: bool,
    secretID: string,
    timeouts: Option<Timeouts>,
    lbMethod: string,
    sessionPersistence: Option<string>,
    createMonitor: bool,
    monitorDelay: int,
    monitorTimeout: int,
    monitorMaxRetries: int,
    manageSecurityGroups: bool)

  datatype AddressType = InternalIP | ExternalIP | HostName

  datatype NodeAddress = NodeAddress(kind: AddressType, address: string)

  datatype Node = Node(name: string, providerID: string, addresses: seq<NodeAddress>)

  datatype Service = Service(namespace: string, name: string, uid: string, ports: seq<ServicePort>,
                             ingress: seq<string>)

  datatype Member = Member(address: Addr, port: int, subnet: string)

  datatype LB = LB(id: ID, name: string, condemned: bool, vipAddress: string, vipPort: ID)

  datatype Listener = Listener(
    id: ID, lb: ID, name: string, protocol: ListenerProtocol, port: int,
    forwarded: bool, secret: string, timeouts: Timeouts)

  datatype Pool = Pool(
    id: ID, lb: ID, refs: seq<ID>, name: string, protocol: ListenerProtocol,
    algorithm: string, persistence: Option<string>, monitor: Option<Monitor>, members: seq<Member>)

  datatype Rule = Rule(
    id: ID, group: ID, remoteGroup: ID, direction: string, etherType: Option<string>,
    protocol: Option<string>, portMax: Option<int>, portMin: Option<int>, prefix: Option<string>)

  datatype Group = Group(id: ID, name: string, rules: seq<Rule>)

  datatype FloatingIP = FloatingIP(id: ID, address: string, port: ID)

  datatype Interface = Interface(port: ID, cidrs: seq<string>)

  // A security group that an instance carries.
  datatype Membership = Membership(group: ID, name: string)

  datatype Instance = Instance(id: string, name: string, groups: seq<Membership>, interfaces: seq<Interface>)

  datatype Status = Active | Failed | Pending
}
