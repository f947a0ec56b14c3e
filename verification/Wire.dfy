/** The values that travel between devices, the gateway and the servers. */
module Wire {
  datatype Option<+T> = None | Some(value: T)

  type Byte = b: int | 0 <= b < 0x100
  type DataBuffer = seq<Byte>

  // The 8-bit id a device gets from the bus.
  type DeviceId = d: int | 0 <= d < 0x100
  type ClientId = nat
  type TimePoint = nat

  // Server ids fit the 32 bits they are cast to when a key is built.
  type ServerId = n: int | 0 <= n < 0x1_0000_0000

  datatype Endpoint = Endpoint(ip: nat, port: nat, protocol: nat)
  type ServerEndpoints = seq<Endpoint>

  // `std::hash<ServerEndpoints>`: any function into size_t.
  type EndpointsHash = ServerEndpoints -> nat

  // How a client names the server it wants.
  datatype ServeKind = ById(id: ServerId) | ByEndpoints(endpoints: ServerEndpoints)

  // A call a device makes on the gateway.
  datatype GatewayCall =
    | ToServerId(client: ClientId, serverId: ServerId, data: DataBuffer)
    | ToServer(client: ClientId, endpoints: ServerEndpoints, data: DataBuffer)
  {
    function Wanted(): ServeKind {
      match this
      case ToServerId(_, id, _) => ById(id)
      case ToServer(_, eps, _) => ByEndpoints(eps)
    }
  }

  // The call the gateway makes back on a device.
  datatype ClientCall = FromServer(client: ClientId, data: DataBuffer)

  // A server object; two objects may have the same contents.
  datatype Server = Server(id: ServerId, endpoints: ServerEndpoints)

  // What a resolver answers: addresses, each with its protocols and ports.
  datatype ProtocolPort = ProtocolPort(protocol: nat, port: nat)
  datatype IpAddress = IpAddress(ip: nat, protocolAndPorts: seq<ProtocolPort>)
  datatype ServerDescriptor = ServerDescriptor(serverId: ServerId, ips: seq<IpAddress>)

  datatype Key = Key(device: DeviceId, client: ClientId, server: nat)

  /** The 32-bit identity of a server inside a key. */
  function Identity(h: EndpointsHash, server: ServeKind): (r: nat)
    ensures r < 0x1_0000_0000
  {
    match server
    case ById(id) => id
    case ByEndpoints(eps) => h(eps) % 0x1_0000_0000
  }

  function MakeKey(h: EndpointsHash, device: DeviceId, client: ClientId, server: ServeKind): Key {
    Key(device, client, Identity(h, server))
  }

  /** The order the session table is sorted by. */
  predicate KeyLess(a: Key, b: Key) {
    || a.device < b.device
    || (a.device == b.device && a.client < b.client)
    || (a.device == b.device && a.client == b.client && a.server < b.server)
  }

  /** Is `server` the server that `wanted` names? */
  predicate Names(wanted: ServeKind, server: Server) {
    match wanted
    case ById(id) => server.id == id
    case ByEndpoints(eps) => server == Server(0, eps)
  }
}
